/**
 * The packed `Light` record shared by the CPU light builder and the GPU shaders.
 *
 * Five kinds of light share one record of four float4 words. The kind is not stored
 * in a field of its own: the bits of `v3.w` hold either a type tag (one of five
 * consecutive 32-bit patterns starting at 0xFFF0FF80) or, for area lights, `0.0` or two
 * packed half-precision texture coordinates. The tags are NaN patterns both as a
 * binary32 float and in their upper binary16 half, so no non-NaN texture coordinate
 * can be mistaken for a tag.
 *
 * Floats are modelled by their 32-bit patterns; the model does no float arithmetic.
 */
module Lights {
  import opened Basics

  /** The IEEE 754 binary32 bit pattern of a `float`. */
  type FloatBits = bv32

  /** The bit pattern of `0.0F`. */
  const ZERO: FloatBits := 0

  /** `glm::uintBitsToFloat(UINT_MAX)`, the radiance.w marker of every light without a radiance map. */
  const UINT_MAX: bv32 := 0xFFFF_FFFF

  datatype Float3 = Float3(x: FloatBits, y: FloatBits, z: FloatBits)

  datatype Float4 = Float4(x: FloatBits, y: FloatBits, z: FloatBits, w: FloatBits)

  /** A `float2` texture coordinate already rounded to two binary16 bit patterns. */
  datatype Half2 = Half2(x: bv16, y: bv16)

  /** `struct Light`: radiance, then three vertices whose `.w` words hold packed data. */
  datatype Light = Light(radiance: Float4, v1: Float4, v2: Float4, v3: Float4)

  function Extend(v: Float3, w: FloatBits): Float4
  {
    Float4(v.x, v.y, v.z, w)
  }

  function XYZ(v: Float4): Float3
  {
    Float3(v.x, v.y, v.z)
  }

  /** `Light light = {}`: every word zero. */
  const EMPTY_LIGHT: Light := Light(Float4(0, 0, 0, 0), Float4(0, 0, 0, 0), Float4(0, 0, 0, 0), Float4(0, 0, 0, 0))

  // ---------------------------------------------------------------------------
  // Type tags

  /** The named enumerators of `LightType`. */
  datatype LightType = Point | Spot | Direction | Environment | Area

  const K_LIGHT_POINT: bv32 := 0xFFF0FF80
  const K_LIGHT_SPOT: bv32 := K_LIGHT_POINT + 1
  const K_LIGHT_DIRECTION: bv32 := K_LIGHT_SPOT + 1
  const K_LIGHT_ENVIRONMENT: bv32 := K_LIGHT_DIRECTION + 1
  const K_LIGHT_AREA: bv32 := K_LIGHT_ENVIRONMENT + 1

  /** The underlying 32-bit value of each enumerator. */
  function Tag(t: LightType): (tag: bv32)
    ensures K_LIGHT_POINT <= tag <= K_LIGHT_AREA
  {
    match t
    case Point => K_LIGHT_POINT
    case Spot => K_LIGHT_SPOT
    case Direction => K_LIGHT_DIRECTION
    case Environment => K_LIGHT_ENVIRONMENT
    case Area => K_LIGHT_AREA
  }

  /** The enumerator whose value is `w`, if any. Values above `kLight_Area` name no enumerator. */
  function TypeOfTag(w: bv32): (r: Option<LightType>)
    ensures r.Some? <==> K_LIGHT_POINT <= w <= K_LIGHT_AREA
    ensures r.Some? ==> Tag(r.value) == w
  {
    if w == K_LIGHT_POINT then Some(Point)
    else if w == K_LIGHT_SPOT then Some(Spot)
    else if w == K_LIGHT_DIRECTION then Some(Direction)
    else if w == K_LIGHT_ENVIRONMENT then Some(Environment)
    else if w == K_LIGHT_AREA then Some(Area)
    else None
  }

  /**
   * `Light::get_light_type`: the raw `LightType` value. Any `v3.w` pattern below
   * `kLight_Point` is an area light; any other pattern is returned unchanged, so the
   * result is never below `kLight_Point` and may lie above `kLight_Area`.
   */
  function GetLightType(l: Light): (t: bv32)
    ensures K_LIGHT_POINT <= t
    ensures t == l.v3.w || t == K_LIGHT_AREA
    ensures TypeOfTag(t) == Some(Area) <==> l.v3.w < K_LIGHT_POINT || l.v3.w == K_LIGHT_AREA
  {
    var index := l.v3.w;
    if index < K_LIGHT_POINT then K_LIGHT_AREA else index
  }

  /** The named light type of `l`, if its tag names one. */
  function KindOf(l: Light): Option<LightType>
  {
    TypeOfTag(GetLightType(l))
  }

  // ---------------------------------------------------------------------------
  // Half-float packing of texture coordinates

  /** A binary16 NaN: all exponent bits set and a non-zero significand (IEEE 754-2008, section 3.4). */
  predicate IsHalfNaN(h: bv16)
  {
    h & 0x7C00 == 0x7C00 && h & 0x03FF != 0
  }

  /** A binary32 NaN. */
  predicate IsFloatNaN(w: bv32)
  {
    w & 0x7F80_0000 == 0x7F80_0000 && w & 0x007F_FFFF != 0
  }

  /** `packHalf2x16`: `x` in the low 16 bits, `y` in the high 16 bits. */
  function PackHalf2x16(uv: Half2): (w: bv32)
    ensures UnpackHalf2x16(w) == uv
  {
    ((uv.y as bv32) << 16) | (uv.x as bv32)
  }

  /** `unpackHalf2x16`, as the bit patterns of the two halves. */
  function UnpackHalf2x16(w: bv32): Half2
  {
    Half2((w & 0xFFFF) as bv16, (w >> 16) as bv16)
  }

  // ---------------------------------------------------------------------------
  // Constructors

  /** The spot-light quantities the constructor derives with float maths from the cone angles. */
  datatype SpotCone = SpotCone(angleScale: FloatBits, angleOffset: FloatBits, sinAngle: FloatBits, tanAngle: FloatBits)

  /** `MakeAreaLight` without a radiance map: every `.w` is `0.0`. */
  function MakeAreaLight(radiance: Float3, vertex1: Float3, vertex2: Float3, vertex3: Float3): (l: Light)
    ensures GetLightType(l) == Tag(Area)
    ensures l.radiance.w == UINT_MAX && l.v3.w == ZERO
  {
    Light(Extend(radiance, UINT_MAX), Extend(vertex1, ZERO), Extend(vertex2, ZERO), Extend(vertex3, ZERO))
  }

  /** `MakeAreaLight` with a radiance map: the texture index in `radiance.w`, packed UVs in each `.w`. */
  function MakeTexturedAreaLight(radiance: Float3, vertex1: Float3, vertex2: Float3, vertex3: Float3,
    texture: bv32, uv1: Half2, uv2: Half2, uv3: Half2): (l: Light)
    ensures !IsHalfNaN(uv3.y) ==> GetLightType(l) == Tag(Area)
    ensures l.radiance.w == texture
  {
    NonNaNHalvesAreNotTags(uv3);
    Light(Extend(radiance, texture), Extend(vertex1, PackHalf2x16(uv1)),
      Extend(vertex2, PackHalf2x16(uv2)), Extend(vertex3, PackHalf2x16(uv3)))
  }

  /** `MakePointLight`: position and range in `v1`, the point tag in `v3.w`. */
  function MakePointLight(intensity: Float3, position: Float3, range: FloatBits): (l: Light)
    ensures GetLightType(l) == Tag(Point)
    ensures l.radiance.w == UINT_MAX
  {
    EMPTY_LIGHT.(radiance := Extend(intensity, UINT_MAX), v1 := Extend(position, range),
      v3 := Extend(Float3(ZERO, ZERO, ZERO), K_LIGHT_POINT))
  }

  /**
   * `MakeSpotLight`: `direction` is the already normalised cone axis and `cone` the values
   * derived from the cone angles.
   */
  function MakeSpotLight(intensity: Float3, position: Float3, range: FloatBits, direction: Float3, cone: SpotCone): (l: Light)
    ensures GetLightType(l) == Tag(Spot)
    ensures l.radiance.w == UINT_MAX
  {
    EMPTY_LIGHT.(radiance := Extend(intensity, UINT_MAX), v1 := Extend(position, range),
      v2 := Extend(direction, cone.sinAngle),
      v3 := Float4(cone.angleScale, cone.angleOffset, cone.tanAngle, K_LIGHT_SPOT))
  }

  /** `MakeDirectionalLight`: `direction` is the already normalised direction to the light. */
  function MakeDirectionalLight(radiance: Float3, direction: Float3, range: FloatBits): (l: Light)
    ensures GetLightType(l) == Tag(Direction)
    ensures l.radiance.w == UINT_MAX
  {
    EMPTY_LIGHT.(radiance := Extend(radiance, UINT_MAX), v2 := Extend(direction, range),
      v3 := Extend(Float3(ZERO, ZERO, ZERO), K_LIGHT_DIRECTION))
  }

  /** `MakeEnvironmentLight`: mip count and face width stored as raw bits in `radiance.xy`. */
  function MakeEnvironmentLight(mips: bv32, width: bv32): (l: Light)
    ensures GetLightType(l) == Tag(Environment)
    ensures l.radiance.w == UINT_MAX
  {
    EMPTY_LIGHT.(radiance := Float4(mips, width, ZERO, UINT_MAX),
      v3 := Extend(Float3(ZERO, ZERO, ZERO), K_LIGHT_ENVIRONMENT))
  }

  // ---------------------------------------------------------------------------
  // Reading a light back

  datatype AreaTexture = AreaTexture(index: bv32, uv1: Half2, uv2: Half2, uv3: Half2)

  /** What a reader of the record recovers, following the per-type layout of `struct Light`. */
  datatype LightView =
    | PointView(intensity: Float3, position: Float3, range: FloatBits)
    | SpotView(intensity: Float3, position: Float3, range: FloatBits, direction: Float3, cone: SpotCone)
    | DirectionalView(radiance: Float3, direction: Float3, range: FloatBits)
    | EnvironmentView(mips: bv32, width: bv32)
    | AreaView(radiance: Float3, vertex1: Float3, vertex2: Float3, vertex3: Float3, texture: Option<AreaTexture>)
    | UnnamedView(tag: bv32)

  /**
   * Decode a record by its type tag. An area light carries a radiance map iff its
   * `radiance.w` is not the `UINT_MAX` marker.
   */
  function Decode(l: Light): (v: LightView)
    ensures v.UnnamedView? <==> KindOf(l) == None
  {
    match KindOf(l)
    case Some(Point) => PointView(XYZ(l.radiance), XYZ(l.v1), l.v1.w)
    case Some(Spot) =>
      SpotView(XYZ(l.radiance), XYZ(l.v1), l.v1.w, XYZ(l.v2), SpotCone(l.v3.x, l.v3.y, l.v2.w, l.v3.z))
    case Some(Direction) => DirectionalView(XYZ(l.radiance), XYZ(l.v2), l.v2.w)
    case Some(Environment) => EnvironmentView(l.radiance.x, l.radiance.y)
    case Some(Area) =>
      AreaView(XYZ(l.radiance), XYZ(l.v1), XYZ(l.v2), XYZ(l.v3),
        if l.radiance.w == UINT_MAX then None
        else Some(AreaTexture(l.radiance.w, UnpackHalf2x16(l.v1.w), UnpackHalf2x16(l.v2.w), UnpackHalf2x16(l.v3.w))))
    case None => UnnamedView(GetLightType(l))
  }

  // ---------------------------------------------------------------------------
  // Classification under the DISABLE_* compile-time switches

  /** Which of `DISABLE_DELTA_LIGHTS`, `DISABLE_AREA_LIGHTS`, `DISABLE_ENVIRONMENT_LIGHTS` are defined. */
  datatype Features = Features(disableDelta: bool, disableArea: bool, disableEnvironment: bool)

  const ALL_LIGHTS: Features := Features(false, false, false)

  /** `isDeltaLight`, following its preprocessor chain. */
  function IsDeltaLight(f: Features, l: Light): (r: bool)
    ensures f.disableDelta ==> !r
    ensures !f.disableDelta && KindOf(l).Some? && KindOf(l).value in {Point, Spot, Direction} ==> r
    ensures !f.disableArea && KindOf(l) == Some(Area) ==> !r
    ensures !f.disableEnvironment && KindOf(l) == Some(Environment) ==> !r
  {
    if f.disableDelta then false
    else if !f.disableArea && !f.disableEnvironment then
      GetLightType(l) != K_LIGHT_AREA && GetLightType(l) != K_LIGHT_ENVIRONMENT
    else if !f.disableArea then GetLightType(l) != K_LIGHT_AREA
    else if f.disableArea && f.disableEnvironment then true
    else GetLightType(l) != K_LIGHT_ENVIRONMENT
  }

  /** `hasLightPosition`, following its preprocessor chain. */
  function HasLightPosition(f: Features, l: Light): (r: bool)
    ensures (!f.disableDelta || !f.disableArea) && KindOf(l).Some? && KindOf(l).value in {Point, Spot, Area} ==> r
    ensures !f.disableDelta && KindOf(l) == Some(Direction) ==> !r
    ensures !f.disableEnvironment && KindOf(l) == Some(Environment) ==> !r
    ensures f.disableDelta && f.disableArea ==> !r
  {
    if !f.disableDelta && !f.disableEnvironment then
      GetLightType(l) != K_LIGHT_DIRECTION && GetLightType(l) != K_LIGHT_ENVIRONMENT
    else if f.disableDelta && !f.disableEnvironment && !f.disableArea then
      GetLightType(l) != K_LIGHT_ENVIRONMENT
    else if !f.disableDelta && f.disableEnvironment then GetLightType(l) != K_LIGHT_DIRECTION
    else if f.disableDelta && f.disableEnvironment && !f.disableArea then true
    else false
  }

  // ---------------------------------------------------------------------------
  // Properties

  /** The five tags are consecutive, start at 0xFFF0FF80 and are pairwise distinct. */
  lemma TagsAreConsecutive(t: LightType, u: LightType)
    ensures Tag(Point) == 0xFFF0FF80 && Tag(Spot) == 0xFFF0FF81 && Tag(Direction) == 0xFFF0FF82
    ensures Tag(Environment) == 0xFFF0FF83 && Tag(Area) == 0xFFF0FF84
    ensures Tag(t) == Tag(u) ==> t == u
    ensures TypeOfTag(Tag(t)) == Some(t)
  {
  }

  /** Every tag is a NaN both as a binary32 float and in its upper binary16 half. */
  lemma TagsAreNaNPatterns(t: LightType)
    ensures IsFloatNaN(Tag(t))
    ensures IsHalfNaN((Tag(t) >> 16) as bv16)
  {
  }

  /**
   * A packed UV pair whose upper half is not a NaN lies below every tag, so it can
   * never be read as a light type.
   */
  lemma NonNaNHalvesAreNotTags(uv: Half2)
    ensures !IsHalfNaN(uv.y) ==> PackHalf2x16(uv) < K_LIGHT_POINT
  {
    if !IsHalfNaN(uv.y) {
      // The largest binary16 pattern that is not a NaN is negative infinity, 0xFC00.
      assert uv.y <= 0xFC00;
      assert PackHalf2x16(uv) >> 16 == uv.y as bv32;
    }
  }

  /** Without the NaN condition the guarantee is lost: a NaN coordinate can forge a point-light tag. */
  lemma NaNHalvesCanForgeTags()
    ensures IsHalfNaN(Half2(0xFF80, 0xFFF0).y)
    ensures PackHalf2x16(Half2(0xFF80, 0xFFF0)) == Tag(Point)
    ensures forall r: Float3, v1: Float3, v2: Float3, v3: Float3, tex: bv32, uv1: Half2, uv2: Half2 ::
      KindOf(MakeTexturedAreaLight(r, v1, v2, v3, tex, uv1, uv2, Half2(0xFF80, 0xFFF0))) == Some(Point)
  {
  }

  /** Each constructor decodes back to the kind and the data it was built from. */
  lemma ConstructorsRoundTrip(c: Float3, p: Float3, d: Float3, range: FloatBits, cone: SpotCone, mips: bv32, width: bv32)
    ensures Decode(MakePointLight(c, p, range)) == PointView(c, p, range)
    ensures Decode(MakeSpotLight(c, p, range, d, cone)) == SpotView(c, p, range, d, cone)
    ensures Decode(MakeDirectionalLight(c, d, range)) == DirectionalView(c, d, range)
    ensures Decode(MakeEnvironmentLight(mips, width)) == EnvironmentView(mips, width)
  {
  }

  /** Both area-light constructors decode as area lights; the textured one also recovers its map and UVs. */
  lemma AreaLightsRoundTrip(c: Float3, v1: Float3, v2: Float3, v3: Float3, tex: bv32, uv1: Half2, uv2: Half2, uv3: Half2)
    requires tex != UINT_MAX && !IsHalfNaN(uv3.y)
    ensures Decode(MakeAreaLight(c, v1, v2, v3)) == AreaView(c, v1, v2, v3, None)
    ensures Decode(MakeTexturedAreaLight(c, v1, v2, v3, tex, uv1, uv2, uv3))
         == AreaView(c, v1, v2, v3, Some(AreaTexture(tex, uv1, uv2, uv3)))
  {
    NonNaNHalvesAreNotTags(uv3);
  }

  /**
   * With no DISABLE_* switch, a light whose tag names a type is a delta light exactly
   * when it is a point, spot or directional light; an unnamed tag also counts as delta.
   */
  lemma DeltaLightsArePointSpotDirection(l: Light)
    ensures KindOf(l).Some? ==>
      (IsDeltaLight(ALL_LIGHTS, l) <==> KindOf(l).value in {Point, Spot, Direction})
    ensures KindOf(l).None? ==> IsDeltaLight(ALL_LIGHTS, l)
  {
  }

  /** With `DISABLE_DELTA_LIGHTS` no light is a delta light. */
  lemma NoDeltaLightsWhenDisabled(f: Features, l: Light)
    requires f.disableDelta
    ensures !IsDeltaLight(f, l)
  {
  }

  /** With no DISABLE_* switch, only directional and environment lights lack a position. */
  lemma PositionlessLightsAreDirectionEnvironment(l: Light)
    ensures HasLightPosition(ALL_LIGHTS, l) <==> KindOf(l) != Some(Direction) && KindOf(l) != Some(Environment)
  {
  }

  /** The classification of every constructed light. */
  lemma ConstructedLightClassification(c: Float3, p: Float3, d: Float3, range: FloatBits, cone: SpotCone,
    mips: bv32, width: bv32, v2: Float3, v3: Float3)
    ensures IsDeltaLight(ALL_LIGHTS, MakePointLight(c, p, range)) && HasLightPosition(ALL_LIGHTS, MakePointLight(c, p, range))
    ensures IsDeltaLight(ALL_LIGHTS, MakeSpotLight(c, p, range, d, cone))
         && HasLightPosition(ALL_LIGHTS, MakeSpotLight(c, p, range, d, cone))
    ensures IsDeltaLight(ALL_LIGHTS, MakeDirectionalLight(c, d, range))
         && !HasLightPosition(ALL_LIGHTS, MakeDirectionalLight(c, d, range))
    ensures !IsDeltaLight(ALL_LIGHTS, MakeEnvironmentLight(mips, width))
         && !HasLightPosition(ALL_LIGHTS, MakeEnvironmentLight(mips, width))
    ensures !IsDeltaLight(ALL_LIGHTS, MakeAreaLight(c, p, v2, v3))
         && HasLightPosition(ALL_LIGHTS, MakeAreaLight(c, p, v2, v3))
  {
  }
}
