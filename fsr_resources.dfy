/**
 * How the FSR technique describes a texture to the FidelityFX runtime: the resource-state
 * transition it performs first, and the translation of D3D12 resource flags, DXGI formats
 * and D3D12 resource states into FidelityFX usages, formats and states.
 *
 * The constants of both APIs are symbolic: they are fields of `D3d12`, `Ffx` and `Formats`,
 * and nothing is assumed about their values unless a lemma says so.
 */
module FsrResources {
  import opened Basics

  /**
   * A 32-bit flag word as the set of positions of its one bits: `a | b` is `a + b`,
   * `(a & b) != 0` is `a * b != {}`, and a word holding all bits of `b` is `b <= a`.
   */
  type Bits = set<nat>

  /** The D3D12 resource states and resource flags the translation reads. */
  datatype D3d12 = D3d12(
    stateCommon: Bits, stateRenderTarget: Bits, stateUnorderedAccess: Bits,
    stateNonPixelShaderResource: Bits, statePixelShaderResource: Bits, stateIndirectArgument: Bits,
    stateCopyDest: Bits, stateCopySource: Bits, stateGenericRead: Bits, statePresent: Bits,
    flagAllowRenderTarget: Bits, flagAllowDepthStencil: Bits, flagAllowUnorderedAccess: Bits)

  /** The FidelityFX resource states and usages they translate to. */
  datatype Ffx = Ffx(
    stateCommon: Bits, stateRenderTarget: Bits, stateUnorderedAccess: Bits,
    stateComputeRead: Bits, statePixelRead: Bits, stateIndirectArgument: Bits,
    stateCopyDest: Bits, stateCopySrc: Bits, stateGenericRead: Bits, statePresent: Bits,
    usageReadOnly: Bits, usageRenderTarget: Bits, usageDepthTarget: Bits, usageUav: Bits)

  /** The six surface formats the translation knows, in DXGI and in FidelityFX. */
  datatype Formats = Formats(
    dxgiR16Float: int, dxgiR16G16Float: int, dxgiR16G16B16A16Float: int,
    dxgiR32Float: int, dxgiR32G32Float: int, dxgiR32G32B32A32Float: int,
    ffxR16Float: int, ffxR16G16Float: int, ffxR16G16B16A16Float: int,
    ffxR32Float: int, ffxR32G32Float: int, ffxR32G32B32A32Float: int)

  // ---------------------------------------------------------------------------
  // Resource-state transition

  /**
   * The state to move a texture to before handing it over: unordered access when it must
   * be writeable and is not, non-pixel shader resource when it must be read-only and is
   * writeable, nothing otherwise.
   */
  function TransitionTarget(states: Bits, writeable: bool, d: D3d12): (r: Option<Bits>)
    ensures r.Some? <==> writeable == (states * d.stateUnorderedAccess == {})
    ensures r.Some? ==> r.value == if writeable then d.stateUnorderedAccess else d.stateNonPixelShaderResource
  {
    if writeable && states * d.stateUnorderedAccess == {} then Some(d.stateUnorderedAccess)
    else if !writeable && states * d.stateUnorderedAccess != {} then Some(d.stateNonPixelShaderResource)
    else None
  }

  /** The state read back after the transition, taking the graphics layer to apply the target. */
  function ResourceState(states: Bits, writeable: bool, d: D3d12): Bits
  {
    match TransitionTarget(states, writeable, d)
    case Some(target) => target
    case None => states
  }

  // ---------------------------------------------------------------------------
  // Flag translation

  /** One step of the translation: or `to` into `acc` when `word` shares a bit with `from`. */
  function AddIf(acc: Bits, word: Bits, from: Bits, to: Bits): Bits
  {
    if word * from != {} then acc + to else acc
  }

  /** The usage: read-only, plus one usage per resource flag the texture allows. */
  function UsageFlags(resourceFlags: Bits, d: D3d12, f: Ffx): (r: Bits)
    ensures r == Collect(f.usageReadOnly, resourceFlags, UsageTable(d, f))
    ensures forall x :: x in r <==>
      x in f.usageReadOnly
      || exists i | 0 <= i < |UsageTable(d, f)| :: resourceFlags * UsageTable(d, f)[i].0 != {} && x in UsageTable(d, f)[i].1
  {
    var t := UsageTable(d, f);
    assert t[..0] == [];
    CollectPrefix(f.usageReadOnly, resourceFlags, t, 1);
    CollectPrefix(f.usageReadOnly, resourceFlags, t, 2);
    CollectPrefix(f.usageReadOnly, resourceFlags, t, 3);
    assert t[..3] == t;
    CollectMembers(f.usageReadOnly, resourceFlags, t);
    var u0 := f.usageReadOnly;
    var u1 := AddIf(u0, resourceFlags, d.flagAllowRenderTarget, f.usageRenderTarget);
    var u2 := AddIf(u1, resourceFlags, d.flagAllowDepthStencil, f.usageDepthTarget);
    AddIf(u2, resourceFlags, d.flagAllowUnorderedAccess, f.usageUav)
  }

  /** The state translation in the source's order: COMMON alone, or one FidelityFX state per D3D12 state. */
  function TranslateState(s: Bits, d: D3d12, f: Ffx): (r: Bits)
    ensures r == if s * d.stateCommon != {} then f.stateCommon else Collect({}, s, StateTable(d, f))
    ensures s * d.stateCommon == {} ==> forall x :: x in r <==>
      exists i | 0 <= i < |StateTable(d, f)| :: s * StateTable(d, f)[i].0 != {} && x in StateTable(d, f)[i].1
  {
    if s * d.stateCommon != {} then f.stateCommon
    else
      var t := StateTable(d, f);
      assert t[..0] == [];
      CollectPrefix({}, s, t, 1);
      CollectPrefix({}, s, t, 2);
      CollectPrefix({}, s, t, 3);
      CollectPrefix({}, s, t, 4);
      CollectPrefix({}, s, t, 5);
      CollectPrefix({}, s, t, 6);
      CollectPrefix({}, s, t, 7);
      CollectPrefix({}, s, t, 8);
      CollectPrefix({}, s, t, 9);
      assert t[..9] == t;
      CollectMembers({}, s, t);
      var r1 := AddIf({}, s, d.stateRenderTarget, f.stateRenderTarget);
      var r2 := AddIf(r1, s, d.stateUnorderedAccess, f.stateUnorderedAccess);
      var r3 := AddIf(r2, s, d.stateNonPixelShaderResource, f.stateComputeRead);
      var r4 := AddIf(r3, s, d.statePixelShaderResource, f.statePixelRead);
      var r5 := AddIf(r4, s, d.stateIndirectArgument, f.stateIndirectArgument);
      var r6 := AddIf(r5, s, d.stateCopyDest, f.stateCopyDest);
      var r7 := AddIf(r6, s, d.stateCopySource, f.stateCopySrc);
      var r8 := AddIf(r7, s, d.stateGenericRead, f.stateGenericRead);
      AddIf(r8, s, d.statePresent, f.statePresent)
  }

  /** The D3D12-to-FidelityFX state correspondence, COMMON aside, as a table. */
  function StateTable(d: D3d12, f: Ffx): seq<(Bits, Bits)>
  {
    [(d.stateRenderTarget, f.stateRenderTarget), (d.stateUnorderedAccess, f.stateUnorderedAccess),
     (d.stateNonPixelShaderResource, f.stateComputeRead), (d.statePixelShaderResource, f.statePixelRead),
     (d.stateIndirectArgument, f.stateIndirectArgument), (d.stateCopyDest, f.stateCopyDest),
     (d.stateCopySource, f.stateCopySrc), (d.stateGenericRead, f.stateGenericRead),
     (d.statePresent, f.statePresent)]
  }

  /** The resource-flag-to-usage correspondence as a table. */
  function UsageTable(d: D3d12, f: Ffx): seq<(Bits, Bits)>
  {
    [(d.flagAllowRenderTarget, f.usageRenderTarget), (d.flagAllowDepthStencil, f.usageDepthTarget),
     (d.flagAllowUnorderedAccess, f.usageUav)]
  }

  /** `base` together with the target of every table entry whose source shares a bit with `word`. */
  function Collect(base: Bits, word: Bits, table: seq<(Bits, Bits)>): Bits
    decreases |table|
  {
    if |table| == 0 then base
    else
      var last := table[|table| - 1];
      AddIf(Collect(base, word, table[..|table| - 1]), word, last.0, last.1)
  }

  /** The FidelityFX surface format for a DXGI format; `None` for a format the translation does not know. */
  function FfxFormat(format: int, t: Formats): (r: Option<int>)
    ensures r.None? <==>
      format !in {t.dxgiR16Float, t.dxgiR16G16Float, t.dxgiR16G16B16A16Float,
                  t.dxgiR32Float, t.dxgiR32G32Float, t.dxgiR32G32B32A32Float}
    ensures r.Some? ==>
      r.value in {t.ffxR16Float, t.ffxR16G16Float, t.ffxR16G16B16A16Float,
                  t.ffxR32Float, t.ffxR32G32Float, t.ffxR32G32B32A32Float}
  {
    if format == t.dxgiR16Float then Some(t.ffxR16Float)
    else if format == t.dxgiR16G16Float then Some(t.ffxR16G16Float)
    else if format == t.dxgiR16G16B16A16Float then Some(t.ffxR16G16B16A16Float)
    else if format == t.dxgiR32Float then Some(t.ffxR32Float)
    else if format == t.dxgiR32G32Float then Some(t.ffxR32G32Float)
    else if format == t.dxgiR32G32B32A32Float then Some(t.ffxR32G32B32A32Float)
    else None
  }

  /** What the technique knows of a texture it hands over. */
  datatype TextureInfo = TextureInfo(states: Bits, width: nat, height: nat, mipLevels: u32, format: int, resourceFlags: Bits)

  /** `FfxApiResource` without the native resource pointer. */
  datatype ApiResource = ApiResource(width: u32, height: u32, mipCount: u32, usage: Bits, format: Option<int>, state: Bits)

  /** `ToFfxApiResource`: transition the texture, then describe it. */
  function ToFfxApiResource(t: TextureInfo, writeable: bool, d: D3d12, f: Ffx, formats: Formats): (r: ApiResource)
    ensures f.usageReadOnly <= r.usage
    ensures r.usage == Collect(f.usageReadOnly, t.resourceFlags, UsageTable(d, f))
    ensures var s := ResourceState(t.states, writeable, d);
      r.state == if s * d.stateCommon != {} then f.stateCommon else Collect({}, s, StateTable(d, f))
    ensures r.width as int == t.width % U32_MODULUS && r.height as int == t.height % U32_MODULUS
    ensures r.mipCount == t.mipLevels
    ensures r.format.None? <==>
      t.format !in {formats.dxgiR16Float, formats.dxgiR16G16Float, formats.dxgiR16G16B16A16Float,
                    formats.dxgiR32Float, formats.dxgiR32G32Float, formats.dxgiR32G32B32A32Float}
  {
    CollectKeepsBase(f.usageReadOnly, t.resourceFlags, UsageTable(d, f));
    ApiResource(WrapU32(t.width), WrapU32(t.height), t.mipLevels, UsageFlags(t.resourceFlags, d, f),
      FfxFormat(t.format, formats), TranslateState(ResourceState(t.states, writeable, d), d, f))
  }

  // ---------------------------------------------------------------------------
  // Properties

  /** A step always keeps the bits already gathered, and adds all of `to` when `word` meets `from`. */
  lemma AddIfKeeps(acc: Bits, word: Bits, from: Bits, to: Bits, kept: Bits)
    ensures kept <= acc ==> kept <= AddIf(acc, word, from, to)
    ensures word * from != {} ==> to <= AddIf(acc, word, from, to)
  {
  }

  /** The base is always kept. */
  lemma {:induction false} CollectKeepsBase(base: Bits, word: Bits, table: seq<(Bits, Bits)>)
    ensures base <= Collect(base, word, table)
    decreases |table|
  {
    if |table| > 0 {
      var last := table[|table| - 1];
      CollectKeepsBase(base, word, table[..|table| - 1]);
      AddIfKeeps(Collect(base, word, table[..|table| - 1]), word, last.0, last.1, base);
    }
  }

  /** Every entry whose source meets the word contributes its whole target. */
  lemma {:induction false} CollectIncludesPresent(base: Bits, word: Bits, table: seq<(Bits, Bits)>, i: nat)
    requires i < |table| && word * table[i].0 != {}
    ensures table[i].1 <= Collect(base, word, table)
    decreases |table|
  {
    var prefix := table[..|table| - 1];
    var last := table[|table| - 1];
    if i == |table| - 1 {
      AddIfKeeps(Collect(base, word, prefix), word, last.0, last.1, last.1);
    } else {
      CollectIncludesPresent(base, word, prefix, i);
      AddIfKeeps(Collect(base, word, prefix), word, last.0, last.1, table[i].1);
    }
  }

  /** When no entry's source meets the word, nothing is added to the base. */
  lemma {:induction false} CollectOfAbsentIsBase(base: Bits, word: Bits, table: seq<(Bits, Bits)>)
    requires forall i :: 0 <= i < |table| ==> word * table[i].0 == {}
    ensures Collect(base, word, table) == base
    decreases |table|
  {
    if |table| > 0 {
      CollectOfAbsentIsBase(base, word, table[..|table| - 1]);
    }
  }

  /** An element is collected iff it is in the base or in the target of an entry whose source meets the word. */
  lemma {:induction false} CollectMembers(base: Bits, word: Bits, table: seq<(Bits, Bits)>)
    ensures forall x :: x in Collect(base, word, table) <==>
      x in base || exists i | 0 <= i < |table| :: word * table[i].0 != {} && x in table[i].1
    decreases |table|
  {
    if |table| > 0 {
      var n := |table| - 1;
      var prefix := table[..n];
      CollectMembers(base, word, prefix);
      forall x
        ensures x in Collect(base, word, table) <==>
          x in base || exists i | 0 <= i < |table| :: word * table[i].0 != {} && x in table[i].1
      {
        if exists i | 0 <= i < |table| :: word * table[i].0 != {} && x in table[i].1 {
          var i :| 0 <= i < |table| && word * table[i].0 != {} && x in table[i].1;
          if i < n {
            assert prefix[i] == table[i];
          }
        }
        if x in Collect(base, word, prefix) && x !in base {
          var i :| 0 <= i < |prefix| && word * prefix[i].0 != {} && x in prefix[i].1;
          assert table[i] == prefix[i];
        }
      }
    }
  }

  /** Collecting over a prefix one entry longer. */
  lemma CollectPrefix(base: Bits, word: Bits, table: seq<(Bits, Bits)>, n: nat)
    requires 0 < n <= |table|
    ensures Collect(base, word, table[..n]) ==
      AddIf(Collect(base, word, table[..n - 1]), word, table[n - 1].0, table[n - 1].1)
  {
    assert table[..n][..n - 1] == table[..n - 1];
  }

  /** The usage always includes read-only, and the usage of every resource flag the texture allows. */
  lemma UsageIncludesAllowed(resourceFlags: Bits, d: D3d12, f: Ffx, i: nat)
    requires i < 3 && resourceFlags * UsageTable(d, f)[i].0 != {}
    ensures f.usageReadOnly <= UsageFlags(resourceFlags, d, f)
    ensures UsageTable(d, f)[i].1 <= UsageFlags(resourceFlags, d, f)
  {
    CollectKeepsBase(f.usageReadOnly, resourceFlags, UsageTable(d, f));
    CollectIncludesPresent(f.usageReadOnly, resourceFlags, UsageTable(d, f), i);
  }

  /**
   * Outside COMMON each D3D12 state present adds its FidelityFX state, and a word with
   * none of the table's D3D12 states translates to no state at all.
   */
  lemma PresentStatesAreTranslated(s: Bits, d: D3d12, f: Ffx, i: nat)
    requires s * d.stateCommon == {}
    requires i < 9 && s * StateTable(d, f)[i].0 != {}
    ensures StateTable(d, f)[i].1 <= TranslateState(s, d, f)
  {
    CollectIncludesPresent({}, s, StateTable(d, f), i);
  }

  lemma UnknownStatesTranslateToNothing(s: Bits, d: D3d12, f: Ffx)
    requires s * d.stateCommon == {}
    requires forall i :: 0 <= i < |StateTable(d, f)| ==> s * StateTable(d, f)[i].0 == {}
    ensures TranslateState(s, d, f) == {}
  {
    CollectOfAbsentIsBase({}, s, StateTable(d, f));
  }

  /** COMMON present gives exactly the FidelityFX COMMON state. */
  lemma CommonGivesCommonOnly(s: Bits, d: D3d12, f: Ffx)
    requires s * d.stateCommon != {}
    ensures TranslateState(s, d, f) == f.stateCommon
  {
  }

  /** D3D12 defines COMMON as 0, which makes the COMMON branch unreachable. */
  lemma CommonBranchIsDead(s: Bits, d: D3d12, f: Ffx)
    requires d.stateCommon == {}
    ensures TranslateState(s, d, f) == Collect({}, s, StateTable(d, f))
  {
  }

  /** A word meeting `part`, where `part` lies inside `whole`, meets `whole`. */
  lemma MeetsContaining(s: Bits, part: Bits, whole: Bits)
    requires part <= whole && s * part != {}
    ensures s * whole != {}
  {
  }

  /**
   * GENERIC_READ is a combination of read states in D3D12: a texture in the non-pixel
   * shader resource state is reported to FidelityFX as compute-read and also as generic-read.
   */
  lemma ShaderReadIsAlsoGenericRead(s: Bits, d: D3d12, f: Ffx)
    requires d.stateCommon == {}
    requires d.stateNonPixelShaderResource <= d.stateGenericRead
    requires s * d.stateNonPixelShaderResource != {}
    ensures f.stateComputeRead <= TranslateState(s, d, f)
    ensures f.stateGenericRead <= TranslateState(s, d, f)
  {
    MeetsContaining(s, d.stateNonPixelShaderResource, d.stateGenericRead);
    PresentStatesAreTranslated(s, d, f, 2);
    PresentStatesAreTranslated(s, d, f, 7);
  }

  /**
   * After the transition the texture holds the unordered-access state exactly when it was
   * requested writeable, given that the non-pixel shader state is not an unordered-access one.
   */
  lemma TransitionGivesRequestedAccess(states: Bits, writeable: bool, d: D3d12)
    requires d.stateUnorderedAccess != {}
    requires d.stateNonPixelShaderResource * d.stateUnorderedAccess == {}
    ensures ResourceState(states, writeable, d) * d.stateUnorderedAccess != {} <==> writeable
    ensures TransitionTarget(states, writeable, d).None? ==> ResourceState(states, writeable, d) == states
  {
  }

  /**
   * A texture handed over writeable is described in the FidelityFX unordered-access state
   * (D3D12's COMMON being 0, no bits), with its usage including read-only.
   */
  lemma WriteableIsReportedUnordered(t: TextureInfo, d: D3d12, f: Ffx, formats: Formats)
    requires d.stateCommon == {} && d.stateUnorderedAccess != {}
    ensures var r := ToFfxApiResource(t, true, d, f, formats);
      && f.stateUnorderedAccess <= r.state
      && f.usageReadOnly <= r.usage
      && r.width as int == t.width % U32_MODULUS && r.height as int == t.height % U32_MODULUS
  {
    var s := ResourceState(t.states, true, d);
    assert s * d.stateUnorderedAccess != {};
    PresentStatesAreTranslated(s, d, f, 1);
    CollectKeepsBase(f.usageReadOnly, t.resourceFlags, UsageTable(d, f));
  }

  /** The six DXGI formats are different values, as in DXGI. */
  predicate DistinctDxgi(t: Formats)
  {
    var s := [t.dxgiR16Float, t.dxgiR16G16Float, t.dxgiR16G16B16A16Float,
              t.dxgiR32Float, t.dxgiR32G32Float, t.dxgiR32G32B32A32Float];
    forall i, j :: 0 <= i < j < 6 ==> s[i] != s[j]
  }

  /** Distinct DXGI formats map each to its own FidelityFX format. */
  lemma FormatsMapPairwise(t: Formats)
    requires DistinctDxgi(t)
    ensures FfxFormat(t.dxgiR16Float, t) == Some(t.ffxR16Float)
    ensures FfxFormat(t.dxgiR16G16Float, t) == Some(t.ffxR16G16Float)
    ensures FfxFormat(t.dxgiR16G16B16A16Float, t) == Some(t.ffxR16G16B16A16Float)
    ensures FfxFormat(t.dxgiR32Float, t) == Some(t.ffxR32Float)
    ensures FfxFormat(t.dxgiR32G32Float, t) == Some(t.ffxR32G32Float)
    ensures FfxFormat(t.dxgiR32G32B32A32Float, t) == Some(t.ffxR32G32B32A32Float)
  {
    var s := [t.dxgiR16Float, t.dxgiR16G16Float, t.dxgiR16G16B16A16Float,
              t.dxgiR32Float, t.dxgiR32G32Float, t.dxgiR32G32B32A32Float];
    assert s[0] != s[1] && s[0] != s[2] && s[0] != s[3] && s[0] != s[4] && s[0] != s[5];
    assert s[1] != s[2] && s[1] != s[3] && s[1] != s[4] && s[1] != s[5];
    assert s[2] != s[3] && s[2] != s[4] && s[2] != s[5];
    assert s[3] != s[4] && s[3] != s[5] && s[4] != s[5];
  }
}
