/**
 * The shared resource descriptors of the framework: the `BitMask` flag algebra over
 * `uint8_t` enumerations, the shared texture and buffer requests that render techniques
 * hand to the framework, and the typed lookup of a render option by name.
 */
module CapsaicinTypes {
  import opened Basics

  /** The word with only bit `i` set (0 = least significant). */
  function BitValue(i: nat): bv8
    requires i < 8
  {
    if i == 0 then 1 else if i == 1 then 2 else if i == 2 then 4 else if i == 3 then 8
    else if i == 4 then 16 else if i == 5 then 32 else if i == 6 then 64 else 128
  }

  /** Bit `i` of an 8-bit word is set. */
  predicate HasBit(w: bv8, i: nat)
    requires i < 8
  {
    w & BitValue(i) != 0
  }

  /** Two words share a set bit exactly when their conjunction is non-zero. */
  lemma SharedBit(a: bv8, b: bv8)
    ensures a & b != 0 <==> exists i: nat | i < 8 :: HasBit(a, i) && HasBit(b, i)
  {
    var c := a & b;
    if c & 1 != 0 { assert HasBit(a, 0) && HasBit(b, 0); }
    else if c & 2 != 0 { assert HasBit(a, 1) && HasBit(b, 1); }
    else if c & 4 != 0 { assert HasBit(a, 2) && HasBit(b, 2); }
    else if c & 8 != 0 { assert HasBit(a, 3) && HasBit(b, 3); }
    else if c & 16 != 0 { assert HasBit(a, 4) && HasBit(b, 4); }
    else if c & 32 != 0 { assert HasBit(a, 5) && HasBit(b, 5); }
    else if c & 64 != 0 { assert HasBit(a, 6) && HasBit(b, 6); }
    else if c & 128 != 0 { assert HasBit(a, 7) && HasBit(b, 7); }
  }

  /** `BitMask<T>` for an enumeration whose underlying type is `uint8_t`: only the bits are kept. */
  datatype BitMask = BitMask(mask: bv8)

  /** The default-constructed mask. */
  function EmptyMask(): (r: BitMask)
    ensures forall i: nat | i < 8 :: !HasBit(r.mask, i)
  {
    BitMask(0)
  }

  /**
   * `operator==(T)`: the whole mask is compared with one enumerator's underlying value.
   */
  function Equals(m: BitMask, e: bv8): (r: bool)
    ensures r <==> forall i: nat | i < 8 :: HasBit(m.mask, i) <==> HasBit(e, i)
  {
    BitsDetermineWord(m.mask, e);
    m.mask == e
  }

  /** `operator!=(T)`: the negation of `operator==`, true iff some bit differs. */
  function NotEquals(m: BitMask, e: bv8): (r: bool)
    ensures r <==> !Equals(m, e)
    ensures r <==> exists i: nat | i < 8 :: HasBit(m.mask, i) != HasBit(e, i)
  {
    m.mask != e
  }

  /** Two 8-bit words are equal iff they agree on every bit. */
  lemma BitsDetermineWord(a: bv8, b: bv8)
    ensures a == b <==> forall i: nat | i < 8 :: HasBit(a, i) <==> HasBit(b, i)
  {
    if a != b {
      var c := a ^ b;
      XorBits(a, b);
      SharedBit(c, c);
      var i :| 0 <= i < 8 && HasBit(c, i) && HasBit(c, i);
      assert HasBit(a, i) != HasBit(b, i);
    }
  }

  /** The implicit conversion from an enumerator: the mask holds its underlying value. */
  function FromEnum(e: bv8): (r: BitMask)
    ensures Equals(r, e)
  {
    BitMask(e)
  }

  /** `operator|(BitMask)`: a bit is set in the result iff it is set in either operand. */
  function Or(m: BitMask, o: BitMask): (r: BitMask)
    ensures forall i: nat | i < 8 :: HasBit(r.mask, i) <==> HasBit(m.mask, i) || HasBit(o.mask, i)
  {
    BitMask(m.mask | o.mask)
  }

  /** `operator|(T)`: the same as or-ing the mask built from the enumerator. */
  function OrEnum(m: BitMask, e: bv8): (r: BitMask)
    ensures r == Or(m, FromEnum(e))
  {
    BitMask(m.mask | e)
  }

  /** Bit `i` of `a ^ b` is set iff exactly one of `a`, `b` has it. */
  lemma XorBits(a: bv8, b: bv8)
    ensures forall i: nat | i < 8 :: HasBit(a ^ b, i) <==> HasBit(a, i) != HasBit(b, i)
  {
    forall i: nat | i < 8
      ensures HasBit(a ^ b, i) <==> HasBit(a, i) != HasBit(b, i)
    {
      var v := BitValue(i);
      assert v == 1 || v == 2 || v == 4 || v == 8 || v == 16 || v == 32 || v == 64 || v == 128;
    }
  }

  /** `operator^(BitMask)`: a bit is set in the result iff exactly one operand has it. */
  function Xor(m: BitMask, o: BitMask): (r: BitMask)
    ensures forall i: nat | i < 8 :: HasBit(r.mask, i) <==> HasBit(m.mask, i) != HasBit(o.mask, i)
  {
    XorBits(m.mask, o.mask);
    BitMask(m.mask ^ o.mask)
  }

  /** `operator^(T)`. */
  function XorEnum(m: BitMask, e: bv8): (r: BitMask)
    ensures r == Xor(m, FromEnum(e))
  {
    BitMask(m.mask ^ e)
  }

  /** `operator&(T)`: true iff the mask and the enumerator share a set bit. */
  function Test(m: BitMask, e: bv8): (r: bool)
    ensures r <==> exists i: nat | i < 8 :: HasBit(m.mask, i) && HasBit(e, i)
  {
    SharedBit(m.mask, e);
    m.mask & e != 0
  }

  /** The access patterns of a shared texture or buffer: ordinals, not bits. */
  datatype Access = Read | Write | ReadWrite
  {
    function Value(): (v: bv8)
      ensures v <= 2
    {
      match this
      case Read => 0
      case Write => 1
      case ReadWrite => 2
    }
  }

  /** `SharedTexture::Flags`. */
  datatype TextureFlag = NoFlags | Clear | Accumulate | Optional | OptionalDiscard | OptionalKeep
  {
    function Value(): bv8
    {
      match this
      case NoFlags => 0
      case Clear => 1 << 1
      case Accumulate => 1 << 2
      case Optional => 1 << 3
      case OptionalDiscard => 1 << 4
      case OptionalKeep => 1 << 5
    }
  }

  /** `SharedBuffer::Flags`: the texture flags plus `Allocate`. */
  datatype BufferFlag = NoFlags | Clear | Accumulate | Optional | OptionalDiscard | OptionalKeep | Allocate
  {
    function Value(): bv8
    {
      match this
      case NoFlags => 0
      case Clear => 1 << 1
      case Accumulate => 1 << 2
      case Optional => 1 << 3
      case OptionalDiscard => 1 << 4
      case OptionalKeep => 1 << 5
      case Allocate => 1 << 6
    }
  }

  /** The free `operator|(Flags, Flags)` of `SharedTexture`. */
  function TextureFlagsOr(f: TextureFlag, g: TextureFlag): (r: BitMask)
    ensures forall i: nat | i < 8 :: HasBit(r.mask, i) <==> HasBit(f.Value(), i) || HasBit(g.Value(), i)
    ensures Test(r, f.Value()) <==> f != TextureFlag.NoFlags
    ensures Test(r, g.Value()) <==> g != TextureFlag.NoFlags
  {
    OrEnum(FromEnum(f.Value()), g.Value())
  }

  /** The free `operator^(Flags, Flags)` of `SharedTexture`. */
  function TextureFlagsXor(f: TextureFlag, g: TextureFlag): (r: BitMask)
    ensures f == g ==> r == EmptyMask()
    ensures f != g ==> r == TextureFlagsOr(f, g)
  {
    XorEnum(FromEnum(f.Value()), g.Value())
  }

  /** The free `operator|(Flags, Flags)` of `SharedBuffer`. */
  function BufferFlagsOr(f: BufferFlag, g: BufferFlag): (r: BitMask)
    ensures forall i: nat | i < 8 :: HasBit(r.mask, i) <==> HasBit(f.Value(), i) || HasBit(g.Value(), i)
    ensures Test(r, f.Value()) <==> f != BufferFlag.NoFlags
    ensures Test(r, g.Value()) <==> g != BufferFlag.NoFlags
  {
    OrEnum(FromEnum(f.Value()), g.Value())
  }

  /** The free `operator^(Flags, Flags)` of `SharedBuffer`. */
  function BufferFlagsXor(f: BufferFlag, g: BufferFlag): (r: BitMask)
    ensures f == g ==> r == EmptyMask()
    ensures f != g ==> r == BufferFlagsOr(f, g)
  {
    XorEnum(FromEnum(f.Value()), g.Value())
  }

  /** A shared texture request; `format` is a DXGI_FORMAT value. */
  datatype SharedTexture = SharedTexture(
    name: string,
    access: BitMask,
    flags: BitMask,
    format: int,
    dimensions: Dims,
    mips: bool,
    backupName: string,
    require: string)

  /** A shared buffer request; `size` is in bytes. */
  datatype SharedBuffer = SharedBuffer(
    name: string,
    access: BitMask,
    flags: BitMask,
    size: nat,
    stride: u32,
    require: string)

  /** A texture request with every field but the name at its default; `unknownFormat` is DXGI_FORMAT_UNKNOWN. */
  function DefaultTexture(name: string, unknownFormat: int): (t: SharedTexture)
    ensures Equals(t.access, Access.Read.Value()) && Equals(t.flags, TextureFlag.NoFlags.Value())
    ensures t.format == unknownFormat && t.dimensions == Dims(0, 0) && !t.mips
    ensures t.backupName == "" && t.require == ""
  {
    SharedTexture(name, FromEnum(Access.Read.Value()), FromEnum(TextureFlag.NoFlags.Value()),
      unknownFormat, Dims(0, 0), false, "", "")
  }

  /** A buffer request with every field but the name at its default. */
  function DefaultBuffer(name: string): (b: SharedBuffer)
    ensures Equals(b.access, Access.Read.Value()) && Equals(b.flags, BufferFlag.NoFlags.Value())
    ensures b.size == 0 && b.stride == 0 && b.require == ""
  {
    SharedBuffer(name, FromEnum(Access.Read.Value()), FromEnum(BufferFlag.NoFlags.Value()), 0, 0, "")
  }

  /** `SharedTexture::operator==`: only the names are compared. */
  function SameTexture(a: SharedTexture, b: SharedTexture): (r: bool)
    ensures r <==> a.(access := b.access, flags := b.flags, format := b.format,
      dimensions := b.dimensions, mips := b.mips, backupName := b.backupName, require := b.require) == b
  {
    a.name == b.name
  }

  /** `SharedBuffer::operator==`: only the names are compared. */
  function SameBuffer(a: SharedBuffer, b: SharedBuffer): (r: bool)
    ensures r <==> a.(access := b.access, flags := b.flags, size := b.size,
      stride := b.stride, require := b.require) == b
  {
    a.name == b.name
  }

  /** One value of the `Option` variant of the render option list. */
  datatype OptionValue =
    | BoolOption(b: bool)
    | U32Option(u: u32)
    | I32Option(i: int)
    | U8Option(v: u8)
    | FloatOption(bits: bv32)
    | StringOption(s: string)

  /** `RenderOptionList`: option name to value. */
  type RenderOptionList = map<string, OptionValue>

  /** `RENDER_OPTION_GET` for a `bool` member needs the key present and holding a `bool`. */
  predicate HasBool(options: RenderOptionList, key: string)
  {
    key in options && options[key].BoolOption?
  }

  predicate HasU8(options: RenderOptionList, key: string)
  {
    key in options && options[key].U8Option?
  }

  predicate HasU32(options: RenderOptionList, key: string)
  {
    key in options && options[key].U32Option?
  }

  predicate HasFloat(options: RenderOptionList, key: string)
  {
    key in options && options[key].FloatOption?
  }

  /** `RENDER_OPTION_GET` for a `bool` member: the value stored under `key`. */
  function GetBool(options: RenderOptionList, key: string): (r: bool)
    requires HasBool(options, key)
    ensures options[key] == BoolOption(r)
  {
    options[key].b
  }

  function GetU8(options: RenderOptionList, key: string): (r: u8)
    requires HasU8(options, key)
    ensures options[key] == U8Option(r)
  {
    options[key].v
  }

  function GetU32(options: RenderOptionList, key: string): (r: u32)
    requires HasU32(options, key)
    ensures options[key] == U32Option(r)
  {
    options[key].u
  }

  function GetFloat(options: RenderOptionList, key: string): (r: bv32)
    requires HasFloat(options, key)
    ensures options[key] == FloatOption(r)
  {
    options[key].bits
  }

  // ---------------------------------------------------------------------------
  // Laws of the flag algebra

  /** A default mask holds 0; one built from an enumerator holds that enumerator's value. */
  lemma DefaultAndEnumMasks(e: bv8)
    ensures EmptyMask().mask == 0
    ensures FromEnum(e).mask == e
  {
  }

  /** `|` on masks is commutative, associative and idempotent. */
  lemma OrIsSemilattice(a: BitMask, b: BitMask, c: BitMask)
    ensures Or(a, b) == Or(b, a)
    ensures Or(Or(a, b), c) == Or(a, Or(b, c))
    ensures Or(a, a) == a
  {
    assert a.mask | b.mask == b.mask | a.mask;
    assert (a.mask | b.mask) | c.mask == a.mask | (b.mask | c.mask);
    assert a.mask | a.mask == a.mask;
  }

  /** With enumerator operands, the order of `|` does not matter and repeating one changes nothing. */
  lemma OrEnumCommutesAndAbsorbs(m: BitMask, e: bv8, f: bv8)
    ensures OrEnum(OrEnum(m, e), f) == OrEnum(OrEnum(m, f), e)
    ensures OrEnum(OrEnum(m, e), e) == OrEnum(m, e)
  {
    assert (m.mask | e) | f == (m.mask | f) | e;
    assert (m.mask | e) | e == m.mask | e;
  }

  /** Applying `^` twice with the same operand restores the mask. */
  lemma XorTwiceRestores(m: BitMask, o: BitMask, e: bv8)
    ensures Xor(Xor(m, o), o) == m
    ensures XorEnum(XorEnum(m, e), e) == m
  {
  }

  /** `&` can never succeed against an enumerator whose value is 0: `Flags::None` and `Access::Read`. */
  lemma TestAgainstZeroEnumerators(m: BitMask)
    ensures !Test(m, TextureFlag.NoFlags.Value())
    ensures !Test(m, BufferFlag.NoFlags.Value())
    ensures !Test(m, Access.Read.Value())
  {
  }

  /** `Access` values are ordinals: a `ReadWrite` mask does not test positive for `Write`. */
  lemma AccessIsNotABitSet()
    ensures !Test(FromEnum(Access.ReadWrite.Value()), Access.Write.Value())
    ensures Test(FromEnum(Access.ReadWrite.Value()), Access.ReadWrite.Value())
    ensures Or(FromEnum(Access.Write.Value()), FromEnum(Access.ReadWrite.Value())).mask == 3
  {
  }

  /** The non-None flags of each enumeration are distinct single bits. */
  lemma {:induction false} FlagsAreDistinctSingleBits(f: BufferFlag, g: BufferFlag)
    ensures f != BufferFlag.NoFlags ==> exists i: nat | i < 8 :: f.Value() == BitValue(i)
    ensures f != g ==> f.Value() & g.Value() == 0
  {
    match f
    case NoFlags =>
    case Clear => assert f.Value() == BitValue(1);
    case Accumulate => assert f.Value() == BitValue(2);
    case Optional => assert f.Value() == BitValue(3);
    case OptionalDiscard => assert f.Value() == BitValue(4);
    case OptionalKeep => assert f.Value() == BitValue(5);
    case Allocate => assert f.Value() == BitValue(6);
  }

  /** The texture flags have the same values as the buffer flags of the same name. */
  lemma TextureFlagsMatchBufferFlags()
    ensures TextureFlag.Clear.Value() == BufferFlag.Clear.Value()
    ensures TextureFlag.Accumulate.Value() == BufferFlag.Accumulate.Value()
    ensures TextureFlag.Optional.Value() == BufferFlag.Optional.Value()
    ensures TextureFlag.OptionalDiscard.Value() == BufferFlag.OptionalDiscard.Value()
    ensures TextureFlag.OptionalKeep.Value() == BufferFlag.OptionalKeep.Value()
  {
  }

  /**
   * Because the flags are distinct single bits, a flag or-ed into a mask stays testable
   * whatever else is or-ed in afterwards, and a flag not in the mask does not test positive.
   */
  lemma OredFlagStaysTestable(m: BitMask, f: BufferFlag, g: BufferFlag)
    requires f != BufferFlag.NoFlags
    ensures Test(OrEnum(OrEnum(m, f.Value()), g.Value()), f.Value())
    ensures f != g && !Test(m, f.Value()) ==> !Test(OrEnum(m, g.Value()), f.Value())
  {
    FlagsAreDistinctSingleBits(f, g);
  }

  /** `==` compares the whole mask: a mask combining two different flags equals neither flag. */
  lemma CombinedMaskEqualsNeither(f: BufferFlag, g: BufferFlag)
    requires f != g && f != BufferFlag.NoFlags && g != BufferFlag.NoFlags
    ensures !Equals(BufferFlagsOr(f, g), f.Value())
    ensures !Equals(BufferFlagsOr(f, g), g.Value())
    ensures NotEquals(BufferFlagsOr(f, g), f.Value()) && NotEquals(BufferFlagsOr(f, g), g.Value())
  {
    FlagsAreDistinctSingleBits(f, g);
    FlagsAreDistinctSingleBits(g, f);
  }

  /** Texture and buffer equality ignore every field except the name. */
  lemma EqualityIsByNameOnly(t: SharedTexture, t': SharedTexture, b: SharedBuffer, b': SharedBuffer)
    ensures SameTexture(t, t') <==> t.name == t'.name
    ensures SameBuffer(b, b') <==> b.name == b'.name
    ensures SameTexture(t, t.(access := t'.access, flags := t'.flags, format := t'.format,
      dimensions := t'.dimensions, mips := t'.mips, backupName := t'.backupName, require := t'.require))
    ensures SameBuffer(b, b.(access := b'.access, flags := b'.flags, size := b'.size,
      stride := b'.stride, require := b'.require))
  {
  }

  /** A value stored under a key is what `RENDER_OPTION_GET` reads back. */
  lemma OptionLookupRoundTrip(options: RenderOptionList, key: string, b: bool, v: u8, u: u32, bits: bv32)
    ensures GetBool(options[key := BoolOption(b)], key) == b
    ensures GetU8(options[key := U8Option(v)], key) == v
    ensures GetU32(options[key := U32Option(u)], key) == u
    ensures GetFloat(options[key := FloatOption(bits)], key) == bits
  {
  }
}
