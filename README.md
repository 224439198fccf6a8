# Capsaicin light packing, flag masks and configuration state machines, in Dafny

This project models the parts of the Capsaicin real-time renderer that can be stated
exactly. Each part is proved against its own contracts.

- **Packed lights** (`Lights`): the `Light` record of four float4 words. Five light kinds
  share it, and the kind is a 32-bit tag in the bits of `v3.w`.
  - `get_light_type` reads any pattern below `kLight_Point` as an area light.
  - The constructors `Make*Light` encode.
  - `isDeltaLight` and `hasLightPosition` classify, under every combination of the
    `DISABLE_*` switches.
  - The model proves the round trip from each constructor back to its kind and data.
  - It also proves why area-light texture coordinates cannot be misread as a tag: the
    tags are NaN patterns. A NaN coordinate can still forge one.
- **Flag masks and resource requests** (`CapsaicinTypes`): `BitMask<T>` over `uint8_t`
  enumerations, with its `|`, `^`, `&`, `==` and `!=` operators. Also modelled:
  - the `SharedTexture`/`SharedBuffer` requests, whose equality compares names only;
  - the `RENDER_OPTION_GET` lookup in the option list.
  - `Access` enumerators are ordinals, not bits, and the model proves the consequence:
    a `ReadWrite` mask does not test positive for `Write`.
- **Tone mapping** (`ToneMapping`): a class whose methods update the technique's fields.
  - `initToneMapKernel` builds the kernel's three defines from the display's colour space
    and format and the selected operator.
  - `render` decides, from the option changes, whether to tear down, initialise, rebuild
    or reuse. It then chooses input and output textures and the dispatch size.
- **FSR upscaling** (`Fsr`, `FsrResources`):
  - `init` derives the four availability flags from the runtime's provider list.
  - It falls back to automatic selection when the requested version is missing.
  - It creates the context with a version override taken from a provider in the list.
  - `render` decides re-initialisation, history reset and the render and upscale sizes.
  - `ToFfxApiResource` transitions a texture, then translates D3D12 resource flags,
    DXGI formats and D3D12 states into FidelityFX ones.
- **Random-number generator** (`RandomNumberGenerator`): a seed buffer filled by a loop of
  generator outputs, or borrowed from the stratified sampler when that is configured
  identically. The model also gives the rule for rebuilding it each frame.
- **Blue-noise sampler** (`BlueNoiseSampler`): when the sampler reseeds, and what it binds
  for shaders.

Modelling choices:
- Graphics API, DXGI, D3D12 and FidelityFX constants are symbolic fields of records, so
  no proof depends on their values. Where a proof needs a relation between them, a
  lemma's precondition states it; an example is D3D12 defining `COMMON` as 0.
- D3D12/FidelityFX flag words are modelled as the sets of their bit positions: `|` is
  union, `& … != 0` is a non-empty intersection.
- What the graphics layer or runtime answers becomes a method parameter. This covers
  whether a kernel compiles, whether context creation succeeds and the loaded version
  name.
- The Mersenne-Twister generator is a function parameter `gen(seed, i)`, the `i`-th
  output of a generator seeded with `seed`. The hardware random device is a value
  parameter.

The source code is followed throughout. Three places where the code's behaviour is
easy to get wrong:
- `get_light_type` returns patterns above `kLight_Area` unchanged, so the result is a raw
  32-bit value. `isDeltaLight` counts such an unnamed value as a delta light.
- The FSR technique stores the fallback to Auto in its options while the option list
  still holds the request. Every following frame therefore sees a version change and
  re-initialises (`FallbackReinitialisesNextFrame`).
- D3D12 defines `COMMON` as 0, so the `COMMON` branch of the state translation can never
  be taken (`CommonBranchIsDead`).

## Model

| member | source | states |
|---|---|---|
| CapsaicinTypes.EmptyMask | src/core/src/capsaicin/capsaicin_internal_types.h:41-48 | a default-constructed mask has no bit set |
| CapsaicinTypes.Equals | src/core/src/capsaicin/capsaicin_internal_types.h:71 | `==` against an enumerator holds iff the mask agrees with it on all eight bits |
| CapsaicinTypes.NotEquals | src/core/src/capsaicin/capsaicin_internal_types.h:73 | `!=` is the negation of `==`: some bit differs |
| CapsaicinTypes.FromEnum | src/core/src/capsaicin/capsaicin_internal_types.h:57-59 | a mask built from an enumerator compares equal to that enumerator |
| CapsaicinTypes.OrEnum | src/core/src/capsaicin/capsaicin_internal_types.h:61 | or-ing an enumerator is or-ing the mask built from it |
| CapsaicinTypes.Or | src/core/src/capsaicin/capsaicin_internal_types.h:63 | a bit is set in the result iff it is set in either operand |
| CapsaicinTypes.XorEnum | src/core/src/capsaicin/capsaicin_internal_types.h:65 | xor with an enumerator is xor with the mask built from it |
| CapsaicinTypes.Xor | src/core/src/capsaicin/capsaicin_internal_types.h:67 | a bit is set in the result iff exactly one operand has it |
| CapsaicinTypes.Test | src/core/src/capsaicin/capsaicin_internal_types.h:69 | `&` is true iff mask and enumerator share a set bit |
| CapsaicinTypes.Access.Value | src/core/src/capsaicin/capsaicin_internal_types.h:83-88 | access values are the ordinals 0..2 |
| CapsaicinTypes.TextureFlagsOr | src/core/src/capsaicin/capsaicin_internal_types.h:119-123 | a bit is set in the result iff it is set in either flag, so each flag but `None` tests positive |
| CapsaicinTypes.TextureFlagsXor | src/core/src/capsaicin/capsaicin_internal_types.h:125-129 | a texture flag xor-ed with itself gives the empty mask; two different flags give their or |
| CapsaicinTypes.BufferFlagsOr | src/core/src/capsaicin/capsaicin_internal_types.h:174-178 | a bit is set in the result iff it is set in either flag, so each flag but `None` tests positive |
| CapsaicinTypes.BufferFlagsXor | src/core/src/capsaicin/capsaicin_internal_types.h:180-184 | a buffer flag xor-ed with itself gives the empty mask; two different flags give their or |
| CapsaicinTypes.DefaultTexture | src/core/src/capsaicin/capsaicin_internal_types.h:79-114 | a texture request's defaults: read access, no flags, unknown format, zero size, no mips, no backup, no requirement |
| CapsaicinTypes.DefaultBuffer | src/core/src/capsaicin/capsaicin_internal_types.h:138-169 | a buffer request's defaults: read access, no flags, size and stride 0, no requirement |
| CapsaicinTypes.SameTexture | src/core/src/capsaicin/capsaicin_internal_types.h:116 | two texture requests compare equal iff they are identical once every field but the name is copied across |
| CapsaicinTypes.SameBuffer | src/core/src/capsaicin/capsaicin_internal_types.h:171 | two buffer requests compare equal iff they are identical once every field but the name is copied across |
| CapsaicinTypes.GetBool | src/core/src/capsaicin/capsaicin_internal_types.h:203-209 | the lookup requires the key to hold a `bool` and returns the stored value |
| CapsaicinTypes.GetU8 | src/core/src/capsaicin/capsaicin_internal_types.h:203-209 | the lookup requires the key to hold a `uint8_t` and returns the stored value |
| CapsaicinTypes.GetU32 | src/core/src/capsaicin/capsaicin_internal_types.h:203-209 | the lookup requires the key to hold a `uint32_t` and returns the stored value |
| CapsaicinTypes.GetFloat | src/core/src/capsaicin/capsaicin_internal_types.h:203-209 | the lookup requires the key to hold a `float` and returns the stored value |
| CapsaicinTypes.DefaultAndEnumMasks | src/core/src/capsaicin/capsaicin_internal_types.h:41-59 | a default mask holds 0; a mask from an enumerator holds its underlying value |
| CapsaicinTypes.OrIsSemilattice | src/core/src/capsaicin/capsaicin_internal_types.h:63 | mask or-ing is commutative, associative and idempotent |
| CapsaicinTypes.OrEnumCommutesAndAbsorbs | src/core/src/capsaicin/capsaicin_internal_types.h:61 | or-ing enumerators is order-independent and repeating one changes nothing |
| CapsaicinTypes.XorTwiceRestores | src/core/src/capsaicin/capsaicin_internal_types.h:65-67 | applying `^` twice with the same mask or enumerator restores the mask |
| CapsaicinTypes.TestAgainstZeroEnumerators | src/core/src/capsaicin/capsaicin_internal_types.h:69-94 | `&` is always false against `Flags::None` and `Access::Read` |
| CapsaicinTypes.AccessIsNotABitSet | src/core/src/capsaicin/capsaicin_internal_types.h:83-88 | a `ReadWrite` mask tests false for `Write`; or-ing `Write` and `ReadWrite` gives 3 |
| CapsaicinTypes.FlagsAreDistinctSingleBits | src/core/src/capsaicin/capsaicin_internal_types.h:151-162 | every non-None buffer flag is a single bit and different flags share no bit |
| CapsaicinTypes.TextureFlagsMatchBufferFlags | src/core/src/capsaicin/capsaicin_internal_types.h:92-102 | texture flags have the values of the buffer flags of the same name |
| CapsaicinTypes.OredFlagStaysTestable | src/core/src/capsaicin/capsaicin_internal_types.h:151-162 | a flag or-ed into a mask stays testable after further or-ing; an absent flag does not appear by or-ing another |
| CapsaicinTypes.CombinedMaskEqualsNeither | src/core/src/capsaicin/capsaicin_internal_types.h:71-73 | a mask of two different flags is `==` to neither and `!=` to both |
| CapsaicinTypes.EqualityIsByNameOnly | src/core/src/capsaicin/capsaicin_internal_types.h:116-171 | texture and buffer requests are equal iff their names are, whatever their other fields |
| CapsaicinTypes.OptionLookupRoundTrip | src/core/src/capsaicin/capsaicin_internal_types.h:203-209 | a value stored under a key is read back by the lookup of its type |
| Lights.Tag | src/core/src/lights/lights_shared.h:28-35 | every type tag lies between the point and area tags |
| Lights.TypeOfTag | src/core/src/lights/lights_shared.h:28-35 | a 32-bit value names a light type iff it lies in the tag range, and then its tag is that value |
| Lights.GetLightType | src/core/src/lights/lights_shared.h:48-64 | the result is never below the point tag, is the stored word or the area tag, and names Area iff the word is below the point tag or is the area tag |
| Lights.PackHalf2x16 | src/core/src/lights/lights_shared.h:134-136 | unpacking a packed pair of halves gives the pair back |
| Lights.MakeAreaLight | src/core/src/lights/lights_shared.h:104-114 | an untextured area light stores zero in `v3.w`, the no-map marker in `radiance.w`, and decodes as Area |
| Lights.MakeTexturedAreaLight | src/core/src/lights/lights_shared.h:128-138 | a textured area light stores its texture index in `radiance.w` and decodes as Area when its third UV's upper half is not a NaN |
| Lights.MakePointLight | src/core/src/lights/lights_shared.h:147-154 | a point light decodes as Point and carries the no-map marker |
| Lights.MakeSpotLight | src/core/src/lights/lights_shared.h:166-181 | a spot light decodes as Spot and carries the no-map marker |
| Lights.MakeDirectionalLight | src/core/src/lights/lights_shared.h:190-197 | a directional light decodes as Direction and carries the no-map marker |
| Lights.MakeEnvironmentLight | src/core/src/lights/lights_shared.h:205-212 | an environment light decodes as Environment and carries the no-map marker |
| Lights.Decode | src/core/src/lights/lights_shared.h:66-92 | a record reads back as an unnamed value exactly when its tag names no light type |
| Lights.TagsAreConsecutive | src/core/src/lights/lights_shared.h:28-35 | the tags are 0xFFF0FF80..0xFFF0FF84 in the order Point, Spot, Direction, Environment, Area, and are distinct |
| Lights.TagsAreNaNPatterns | src/core/src/lights/lights_shared.h:50-53 | every tag is a binary32 NaN and its upper half is a binary16 NaN |
| Lights.NonNaNHalvesAreNotTags | src/core/src/lights/lights_shared.h:50-53 | packed UVs whose upper half is not a NaN lie below every tag |
| Lights.NaNHalvesCanForgeTags | src/core/src/lights/lights_shared.h:50-53 | a NaN texture coordinate packs to the point tag, so that textured area light decodes as Point |
| Lights.ConstructorsRoundTrip | src/core/src/lights/lights_shared.h:147-212 | point, spot, directional and environment lights decode to their kind and the data they were built from |
| Lights.AreaLightsRoundTrip | src/core/src/lights/lights_shared.h:104-138 | both area-light constructors decode as Area; the textured one recovers texture index and UVs |
| Lights.IsDeltaLight | src/core/src/lights/lights_shared.h:220-234 | under every switch combination: false with delta lights disabled; Point, Spot and Direction are delta otherwise; Area and Environment are not while their kinds are enabled |
| Lights.HasLightPosition | src/core/src/lights/lights_shared.h:242-256 | under every switch combination: Point, Spot and Area have a position unless delta and area lights are both disabled; Direction and Environment have none while their kinds are enabled |
| Lights.DeltaLightsArePointSpotDirection | src/core/src/lights/lights_shared.h:220-234 | with no switch, a named light is delta iff Point, Spot or Direction, and an unnamed tag counts as delta |
| Lights.NoDeltaLightsWhenDisabled | src/core/src/lights/lights_shared.h:220-223 | with `DISABLE_DELTA_LIGHTS` no light is delta |
| Lights.PositionlessLightsAreDirectionEnvironment | src/core/src/lights/lights_shared.h:242-256 | with no switch, a light has a position iff it is neither Direction nor Environment |
| Lights.ConstructedLightClassification | src/core/src/lights/lights_shared.h:220-256 | the delta and position classification of the light built by each constructor |
| ToneMapping.OperatorOf | src/core/src/render_techniques/tone_mapping/tone_mapping.h:47-59 | a `uint8_t` names an operator iff it is at most 9, and then its ordinal is that value |
| ToneMapping.DefaultOptions | src/core/src/render_techniques/tone_mapping/tone_mapping.h:61-62 | tone mapping is enabled with the ACES operator by default |
| ToneMapping.GetRenderOptions | src/core/src/render_techniques/tone_mapping/tone_mapping.cpp:41-47 | the list holds both options under their names with their types |
| ToneMapping.ConvertOptions | src/core/src/render_techniques/tone_mapping/tone_mapping.cpp:49-55 | the options read back are the values stored in the list |
| ToneMapping.ColourSpaceDefine | src/core/src/render_techniques/tone_mapping/tone_mapping.cpp:247-262 | the first define is one of OUTPUT_SCRGB, OUTPUT_HDR10, OUTPUT_SRGB |
| ToneMapping.FormatDefine | src/core/src/render_techniques/tone_mapping/tone_mapping.cpp:264-296 | the second define is OUTPUT_HDR iff the output is HDR, otherwise DITHER_10 or DITHER_8 |
| ToneMapping.GroupCount | src/core/src/render_techniques/tone_mapping/tone_mapping.cpp:202-204 | the group count is the ceiling division: enough groups to cover the dimension and one fewer would not be |
| ToneMapping.SelectTextures | src/core/src/render_techniques/tone_mapping/tone_mapping.cpp:137-180 | with no view, Color or ColorScaled in place; the tone-mapped view reads the colour target and writes Debug unscaled, or switches the view off when scaling; a float AOV is read and Debug written; a non-float AOV leaves the colour target in place; any other view tone-maps Debug in place |
| ToneMapping.PlanDispatch | src/core/src/render_techniques/tone_mapping/tone_mapping.cpp:137-207 | the textures are SelectTextures' choice; the buffer is the window size when ColorScaled exists and TAA is on, the render size otherwise; blue noise is bound iff dithering and HDR parameters iff HDR |
| ToneMapping.StepOf | src/core/src/render_techniques/tone_mapping/tone_mapping.cpp:104-135 | store only iff disabled on both frames; initialise iff disabled→enabled; tear down iff enabled→disabled; rebuild iff staying enabled with a changed operator or colour space; reuse iff staying enabled with neither changed |
| ToneMapping.ToneMapper.constructor | src/core/src/render_techniques/tone_mapping/tone_mapping.h:125-134 | default options, dithering and HDR off, no program and no kernel |
| ToneMapping.ToneMapper.InitToneMapKernel | src/core/src/render_techniques/tone_mapping/tone_mapping.cpp:240-325 | the kernel gets the three defines for the display and operator; HDR as decided and dithering exactly when not HDR; success iff the kernel compiles |
| ToneMapping.ToneMapper.Init | src/core/src/render_techniques/tone_mapping/tone_mapping.cpp:89-100 | options read from the list; when enabled, program created and kernel built; otherwise nothing else changes |
| ToneMapping.ToneMapper.Terminate | src/core/src/render_techniques/tone_mapping/tone_mapping.cpp:210-217 | kernel and program destroyed, other state kept |
| ToneMapping.ToneMapper.Render | src/core/src/render_techniques/tone_mapping/tone_mapping.cpp:102-208 | options always take the new value; per step: store only, tear down, initialise, rebuild or reuse the kernel, and the dispatch is returned unless disabled or a build failed |
| ToneMapping.OperatorOrdinals | src/core/src/render_techniques/tone_mapping/tone_mapping.h:47-59 | ordinals run None=0 … ACES=5 … Agx=9 and every operator round-trips through its ordinal |
| ToneMapping.OptionsRoundTrip | src/core/src/render_techniques/tone_mapping/tone_mapping.cpp:41-55 | reading back the options a technique lists gives the same options |
| ToneMapping.ThreeDefines | src/core/src/render_techniques/tone_mapping/tone_mapping.cpp:240-322 | exactly three defines; the second is OUTPUT_HDR iff HDR and a dithering define iff not |
| ToneMapping.ColourSpaceDefines | src/core/src/render_techniques/tone_mapping/tone_mapping.cpp:248-262 | scRGB gives OUTPUT_SCRGB, G2084/P2020 gives OUTPUT_HDR10, any other colour space OUTPUT_SRGB |
| ToneMapping.OperatorDefines | src/core/src/render_techniques/tone_mapping/tone_mapping.cpp:308-320 | TONEMAP_NONE iff the operator value is 0 or above 9; operators 1..9 give nine different defines |
| ToneMapping.DebugOutputIffShown | src/core/src/render_techniques/tone_mapping/tone_mapping.cpp:141-180 | the pass writes Debug iff the view shows it (unscaled tone-mapped output, a float AOV, or a non-AOV view); otherwise it tone-maps the colour target in place |
| ToneMapping.DispatchCoversBuffer | src/core/src/render_techniques/tone_mapping/tone_mapping.cpp:189-206 | on both axes the dispatch covers the buffer with the fewest groups |
| Fsr.Ordinal | src/core/src/render_techniques/fsr/fsr.h:44-50 | every version's ordinal indexes the four availability flags |
| Fsr.DefaultOptions | src/core/src/render_techniques/fsr/fsr.h:52-55 | FSR enabled, Auto version, sharpening on with sharpness 0.8 by default |
| Fsr.GetRenderOptions | src/core/src/render_techniques/fsr/fsr.cpp:190-198 | the list holds the four options under their names with their types |
| Fsr.ConvertOptions | src/core/src/render_techniques/fsr/fsr.cpp:200-210 | the version is clamped to FSR4 (kept when in range); the other options are the stored values |
| Fsr.FirstOffering | src/core/src/render_techniques/fsr/fsr.cpp:289-291 | the first provider whose name starts with the character, or the end of the list |
| Fsr.FindProvider | src/core/src/render_techniques/fsr/fsr.cpp:324-327 | the search loop returns the first matching provider's position |
| Fsr.EffectiveVersion | src/core/src/render_techniques/fsr/fsr.cpp:312-320 | a request for Auto or for an available version is kept; an unavailable one falls back to Auto; a kept non-Auto version is available |
| Fsr.PlanUpscale | src/core/src/render_techniques/fsr/fsr.cpp:420-476 | scaling iff ColorScaled exists and the scale is below one; colour writeable iff not scaling; sharpening and exposure as configured |
| Fsr.Fsr.constructor | src/core/src/render_techniques/fsr/fsr.h:101-107 | default options, all four availability flags false, no context |
| Fsr.Fsr.Init | src/core/src/render_techniques/fsr/fsr.cpp:233-362 | with TAA off only options change; otherwise availability from the providers, fallback to Auto, context created with the override, success iff providers exist, creation succeeds and a version is reported |
| Fsr.Fsr.QueryAvailability | src/core/src/render_techniques/fsr/fsr.cpp:287-310 | the flags become exactly the availability derived from the providers |
| Fsr.Fsr.MarkIfOffered | src/core/src/render_techniques/fsr/fsr.cpp:289-294 | one flag is set when a provider offers the version; the other flags are kept |
| Fsr.Fsr.CreateContext | src/core/src/render_techniques/fsr/fsr.cpp:312-358 | an unavailable request falls back to Auto; an available one finds its provider in the list; context and version name as the runtime answers |
| Fsr.Fsr.CreateAndQuery | src/core/src/render_techniques/fsr/fsr.cpp:330-358 | the context exists and the version name is stored iff creation succeeds and a name is reported |
| Fsr.Fsr.Terminate | src/core/src/render_techniques/fsr/fsr.cpp:532-542 | context and exposure texture released |
| Fsr.Fsr.Render | src/core/src/render_techniques/fsr/fsr.cpp:364-482 | TAA off: only options applied, torn down if TAA was on; no re-init: resize resets history and sets the jitter phase; re-init: fresh init, then a dispatch with reset if it succeeded |
| Fsr.VersionOrdinals | src/core/src/render_techniques/fsr/fsr.h:44-50 | Auto=0, FSR2=1, FSR3=2, FSR4=3 |
| Fsr.OptionsRoundTrip | src/core/src/render_techniques/fsr/fsr.cpp:190-210 | in-range options round-trip through the list; out-of-range versions come back as FSR4 |
| Fsr.OffersIffFound | src/core/src/render_techniques/fsr/fsr.cpp:289-306 | the search ends inside the list iff some provider offers the version |
| Fsr.NoProvidersNothingAvailable | src/core/src/render_techniques/fsr/fsr.cpp:280-285 | with no providers every flag is false |
| Fsr.AutoAvailableIffAnyVersion | src/core/src/render_techniques/fsr/fsr.cpp:307-310 | Auto is available iff some provider's name starts with '2', '3' or '4' |
| Fsr.OverrideLandsInList | src/core/src/render_techniques/fsr/fsr.cpp:321-330 | a version kept after the fallback is found inside the list, and its override is that provider's id |
| Fsr.FallbackReinitialisesNextFrame | src/core/src/render_techniques/fsr/fsr.cpp:312-320 | after a fallback the stored Auto differs from the still-requested version, so the next frame re-initialises |
| Fsr.ReInitResetsHistory | src/core/src/render_techniques/fsr/fsr.cpp:380-382 | re-init implies a history reset; TAA previously off forces re-init; an unchanged version with TAA on does not |
| Fsr.UpscaleSizes | src/core/src/render_techniques/fsr/fsr.cpp:453-465 | only FSR2 doubles the render size on both axes; the upscale size is the window size when scaling and the render size otherwise |
| FsrResources.FfxFormat | src/core/src/render_techniques/fsr/fsr.cpp:78-105 | unknown iff the format is none of the six handled DXGI formats; otherwise one of the six FidelityFX formats |
| FsrResources.TransitionTarget | src/core/src/render_techniques/fsr/fsr.cpp:52-62 | a transition happens iff the texture's unordered-access state differs from the requested access; it targets unordered access when writeable, non-pixel shader resource otherwise |
| FsrResources.UsageFlags | src/core/src/render_techniques/fsr/fsr.cpp:75-118 | the usage is the table fold from read-only: an element is in it iff it is read-only or belongs to the usage of a resource flag the texture allows |
| FsrResources.TranslateState | src/core/src/render_techniques/fsr/fsr.cpp:120-163 | COMMON alone when COMMON is present; otherwise an element is in the state iff it belongs to the FidelityFX state of a present D3D12 state, as the nine-entry table fold |
| FsrResources.ToFfxApiResource | src/core/src/render_techniques/fsr/fsr.cpp:45-166 | width and height truncated to 32 bits, the texture's mip count, the exact table usage, the translated state of the texture after the transition, and an unknown format iff not handled |
| FsrResources.UsageIncludesAllowed | src/core/src/render_techniques/fsr/fsr.cpp:75-118 | the usage includes read-only and the usage of every allowed resource flag |
| FsrResources.PresentStatesAreTranslated | src/core/src/render_techniques/fsr/fsr.cpp:125-163 | outside COMMON every present D3D12 state adds its FidelityFX state |
| FsrResources.UnknownStatesTranslateToNothing | src/core/src/render_techniques/fsr/fsr.cpp:120-163 | a word with none of the translated states gives state 0 |
| FsrResources.CommonGivesCommonOnly | src/core/src/render_techniques/fsr/fsr.cpp:121-124 | COMMON present gives exactly the FidelityFX COMMON state |
| FsrResources.CommonBranchIsDead | src/core/src/render_techniques/fsr/fsr.cpp:121-124 | with D3D12's COMMON = 0 the translation is always the per-state union |
| FsrResources.ShaderReadIsAlsoGenericRead | src/core/src/render_techniques/fsr/fsr.cpp:135-158 | since GENERIC_READ contains the non-pixel shader state, such a texture is reported compute-read and generic-read |
| FsrResources.TransitionGivesRequestedAccess | src/core/src/render_techniques/fsr/fsr.cpp:52-62 | after the transition the texture is in unordered access iff it was requested writeable; no transition keeps the state |
| FsrResources.WriteableIsReportedUnordered | src/core/src/render_techniques/fsr/fsr.cpp:45-166 | a texture requested writeable is described in the FidelityFX unordered-access state with read-only usage and 32-bit sizes |
| FsrResources.FormatsMapPairwise | src/core/src/render_techniques/fsr/fsr.cpp:78-101 | each of the six DXGI formats maps to its own FidelityFX format |
| RandomNumberGenerator.GetRenderOptions | src/core/src/components/random_number_generator/random_number_generator.cpp:43-49 | the list holds both options under their names with their types |
| RandomNumberGenerator.ConvertOptions | src/core/src/components/random_number_generator/random_number_generator.cpp:51-58 | the options read back are the values stored in the list |
| RandomNumberGenerator.SeedBufferLength | src/core/src/components/random_number_generator/random_number_generator.cpp:67-68 | the buffer has at least 1920×1080 entries and at least one per render pixel |
| RandomNumberGenerator.FillSeedBuffer | src/core/src/components/random_number_generator/random_number_generator.cpp:72-88 | the loop produces exactly the first N outputs of the seeded generator |
| RandomNumberGenerator.RandomNumberGenerator.constructor | src/core/src/components/random_number_generator/random_number_generator.cpp:34-36 | default options and no buffer |
| RandomNumberGenerator.RandomNumberGenerator.Init | src/core/src/components/random_number_generator/random_number_generator.cpp:60-99 | options read; its own buffer of generator outputs (seeded by the option or the hardware value) iff there is no stratified sampler or it is configured differently, else no buffer |
| RandomNumberGenerator.RandomNumberGenerator.Run | src/core/src/components/random_number_generator/random_number_generator.cpp:101-137 | options always updated; the buffer rebuilt as by `init` exactly when the rebuild rule holds, and unchanged otherwise |
| RandomNumberGenerator.RandomNumberGenerator.Terminate | src/core/src/components/random_number_generator/random_number_generator.cpp:139-143 | the buffer is released |
| RandomNumberGenerator.RandomNumberGenerator.ProgramParameters | src/core/src/components/random_number_generator/random_number_generator.cpp:145-161 | its own buffer when there is one, else the stratified sampler's, with the element count as bytes / 4 in 32 bits |
| RandomNumberGenerator.OptionsRoundTrip | src/core/src/components/random_number_generator/random_number_generator.cpp:43-58 | reading back the listed options gives the same options |
| RandomNumberGenerator.DeterministicBuffersAgree | src/core/src/components/random_number_generator/random_number_generator.cpp:72-79 | in deterministic mode equal seeds give equal buffers, whatever the hardware value |
| RandomNumberGenerator.OwnBufferCoversRenderSize | src/core/src/components/random_number_generator/random_number_generator.cpp:67-79 | an own buffer has an entry for every render pixel and at least 1920×1080 entries |
| RandomNumberGenerator.SeedOnlyChangeKeepsRandomBuffer | src/core/src/components/random_number_generator/random_number_generator.cpp:119-126 | in non-deterministic mode a seed change alone does not rebuild a large enough buffer |
| RandomNumberGenerator.UnchangedOptionsKeepOwnBuffer | src/core/src/components/random_number_generator/random_number_generator.cpp:119-126 | unchanged options and a large enough buffer mean no rebuild |
| BlueNoiseSampler.GetRenderOptions | src/core/src/components/blue_noise_sampler/blue_noise_sampler.cpp:43-49 | the list holds both options under their names with their types |
| BlueNoiseSampler.ConvertOptions | src/core/src/components/blue_noise_sampler/blue_noise_sampler.cpp:51-57 | the options read back are the values stored in the list |
| BlueNoiseSampler.BlueNoiseSampler.constructor | src/core/src/components/blue_noise_sampler/blue_noise_sampler.cpp:34-36 | default options and seed, no tables |
| BlueNoiseSampler.BlueNoiseSampler.Init | src/core/src/components/blue_noise_sampler/blue_noise_sampler.cpp:59-65 | the tables are created; options and seed untouched |
| BlueNoiseSampler.BlueNoiseSampler.Run | src/core/src/components/blue_noise_sampler/blue_noise_sampler.cpp:67-90 | options always updated; a new seed drawn (from the option in deterministic mode) iff the reseed rule holds, else the seed is kept |
| BlueNoiseSampler.BlueNoiseSampler.Terminate | src/core/src/components/blue_noise_sampler/blue_noise_sampler.cpp:92-97 | the tables are released; options and seed kept |
| BlueNoiseSampler.BlueNoiseSampler.ProgramParameters | src/core/src/components/blue_noise_sampler/blue_noise_sampler.cpp:99-106 | the three tables and the current seed are bound |
| BlueNoiseSampler.OptionsRoundTrip | src/core/src/components/blue_noise_sampler/blue_noise_sampler.cpp:43-57 | reading back the listed options gives the same options |
| BlueNoiseSampler.UnchangedOptionsKeepSeed | src/core/src/components/blue_noise_sampler/blue_noise_sampler.cpp:72-74 | unchanged options never reseed |
| BlueNoiseSampler.SeedOnlyChangeKeepsRandomSeed | src/core/src/components/blue_noise_sampler/blue_noise_sampler.cpp:72-74 | in non-deterministic mode a seed change alone does not reseed |
| BlueNoiseSampler.DeterministicSeedIsReproducible | src/core/src/components/blue_noise_sampler/blue_noise_sampler.cpp:72-80 | switching to or changing the seed in deterministic mode reseeds with the first output of the generator seeded by the option |

## Left out

- Floating-point arithmetic. Floats are kept as bit patterns, and anything computed from
  them is an input:
  - the spot-light cone values and the normalised directions of `MakeSpotLight` and
    `MakeDirectionalLight`;
  - the conversion of texture coordinates to half floats (`Half2`);
  - tone mapping's HDR maximum luminance and exposure scale;
  - FSR's jitter phase, jitter offset, motion-vector scale, frame-time clamp and camera
    values;
  - the `getRenderDimensionsScale() < 1.0F` test, which is the boolean `scaleBelowOne`.
- The graphics layer, FidelityFX and ImGui. Handles become booleans or the `Kernel` and
  `Context` values; what the layer answers becomes a parameter. Not modelled:
  - command lists, `gfxFinish`, timed sections and the exposure copy;
  - `renderGUI` of both techniques;
  - the FidelityFX message callback;
  - FSR's context-creation descriptor (maximum sizes, flags).
- The declarative lists of the techniques: `getComponents`, `getSharedBuffers`,
  `getSharedTextures` and `getDebugViews`.
- The per-pixel tone-mapping curves and the path-tracing integrator. They live in
  shader code that is not part of this model.
- The values of DXGI, D3D12 and FidelityFX constants. They are symbolic, and flag words
  are sets of bit positions. The model therefore does not capture 32-bit bitwise
  overflow; none occurs, since the translation only ors and tests.
- The internals of `mt19937` and `random_device`. The generator is a function parameter
  and the device a value parameter. The contents of the blue-noise tables are not
  modelled.
- The headers `random_number_generator.h` and `blue_noise_sampler.h` are not part of
  this model. Their option defaults and the initial blue-noise seed are constructor
  parameters.
- The `RENDER_OPTION_MAKE` and `COMPONENT_MAKE` macros. Only the lookup of
  `RENDER_OPTION_GET` is modelled, and its precondition is that the key holds a value of
  the member's type.
- ToneMapping.ToneMapper.constructor: the technique leaves `colourSpace` uninitialised;
  the model takes any initial value as a parameter.
- Fsr.Fsr.providers: the runtime is taken to report the same provider list on every
  query of the process.
- Fsr.Fsr.Init: after a failed context creation the context is taken to be null.
- FsrResources.ToFfxApiResource:
  - the state read back after `gfxTextureSetResourceState` is taken to be the requested
    one;
  - for an unsupported format the source asserts and leaves the format field 0, which
    the model reports as `None`.
- RandomNumberGenerator.RandomNumberGenerator.Init requires the seed count to fit in 32
  bits. The source's `uint32_t` loop counter would never reach a larger count.
- ToneMapping.GroupCount: the ceiling-division bounds are stated only when
  `dimension + threads - 1` does not wrap at 32 bits. With wrap-around the function
  still computes the source's wrapped value.
- Fsr.UpscaleSizes: the doubling of the FSR2 render size is stated only for sizes below
  2^31. Larger sizes wrap as in the source (`RenderSize`).
