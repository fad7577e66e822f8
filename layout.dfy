/** The fixed layout of a packed GamePerson record: the machine integer
    types it uses, every mask, shift and flag constant, and the size budget. */
module Layout {

  /** Go's int on a 64-bit target: a 64-bit two's-complement integer, kept as its bit pattern.
      Read unsigned, `v < n` for a small positive n says 0 <= v < n, since
      every negative value has its top bit set. */
  type Int = bv64

  /** True when the bit pattern of v is read as a negative number. */
  predicate Negative(v: Int) {
    v & 0x8000_0000_0000_0000 != 0
  }

  const MinInt32: Int := 0xFFFF_FFFF_8000_0000
  const MaxInt32: Int := 0x7FFF_FFFF

  /** v lies in [math.MinInt32, math.MaxInt32]. */
  predicate InInt32(v: Int) {
    v <= MaxInt32 || MinInt32 <= v
  }

  /** Go's conversion int32(v): keeps the low 32 bits. */
  function ToInt32(v: Int): (r: bv32) {
    (v & 0xFFFF_FFFF) as bv32
  }

  /** Go's conversion int(v) of an int32: sign extension. */
  function FromInt32(v: bv32): (r: Int) {
    if v & 0x8000_0000 != 0 then (v as Int) | 0xFFFF_FFFF_0000_0000 else v as Int
  }

  /** Every int32 widens to an int in the int32 range, and narrowing it back gives the int32 again. */
  lemma FromInt32InRange(v: bv32)
    ensures InInt32(FromInt32(v)) && ToInt32(FromInt32(v)) == v
  {
  }

  lemma NonNegativeInt32(v: Int)
    ensures v <= MaxInt32 ==> ToInt32(v) & 0x8000_0000 == 0 && ToInt32(v) as Int == v
  {
  }

  lemma NegativeInt32(v: Int)
    ensures MinInt32 <= v ==>
              ToInt32(v) & 0x8000_0000 != 0 && (ToInt32(v) as Int) | 0xFFFF_FFFF_0000_0000 == v
  {
  }

  /** An int32 conversion is undone by int() exactly on the int32 range. */
  lemma Int32RoundTrip(v: Int)
    ensures FromInt32(ToInt32(v)) == v <==> InInt32(v)
  {
    if v <= MaxInt32 {
      NonNegativeInt32(v);
    } else if MinInt32 <= v {
      NegativeInt32(v);
    } else {
      FromInt32InRange(ToInt32(v));
    }
  }

  /** Go's `v >> n` on an int: an arithmetic shift, which copies the sign bit. */
  function ShiftRight(v: Int, n: Int): (r: Int)
    requires n < 64
  {
    if Negative(v) then !((!v) >> n) else v >> n
  }

  /** Go's conversion uint16(v): keeps the low 16 bits. */
  function ToUint16(v: Int): (r: bv16) {
    (v & 0xFFFF) as bv16
  }

  /** Go's conversion byte(v): keeps the low 8 bits. */
  function ToByte(v: Int): (r: bv8) {
    (v & 0xFF) as bv8
  }

  // The four 4-bit fields of the attributes word.
  const RespectMask: bv16 := 0xF
  const StrengthMask: bv16 := 0xF0
  const ExperienceMask: bv16 := 0xF00
  const LevelMask: bv16 := 0xF000

  const StrengthShift: bv16 := 4
  const ExperienceShift: bv16 := 8
  const LevelShift: bv16 := 12

  // The shared three-byte mana/health region.
  const ManaShiftTopBits: Int := 2
  const ManaShiftLowBits: bv8 := 6
  const ManaMaskLowBits: bv8 := 0xC0
  const HealthShiftTopBits: Int := 8
  const HealthMaskTopBits: Int := 0x03
  const HealthMaskLowBits: Int := 0xFF
  /** The four bits of the middle byte that neither stat uses. */
  const ReservedBits: bv8 := 0x3C

  // The person types, in declaration order.
  const BuilderGamePersonType: Int := 0
  const BlacksmithGamePersonType: Int := 1
  const WarriorGamePersonType: Int := 2

  // The bits of the flags byte.
  const HasHouseFlag: bv8 := 1
  const HasWeaponFlag: bv8 := 2
  const HasFamilyFlag: bv8 := 4
  const HasBuilderTypeFlag: bv8 := 8
  const HasBlacksmithTypeFlag: bv8 := 16
  const HasWarriorTypeFlag: bv8 := 32
  /** The three type bits together. */
  const TypeFlags: bv8 := 0x38

  const NameLength: nat := 42
  const ManaHealthLength: nat := 3

  /** Byte widths of the record's fields in declaration order:
      x, y, z, gold, attributes, flags, manahealth, name. */
  const FieldWidths: seq<nat> := [4, 4, 4, 4, 2, 1, ManaHealthLength, NameLength]

  const SizeBudget: nat := 64

  function Sum(s: seq<nat>): nat {
    if s == [] then 0 else s[0] + Sum(s[1..])
  }

  /** The declared widths add up to exactly the 64-byte budget. */
  lemma RecordFitsBudget()
    ensures Sum(FieldWidths) == SizeBudget
  {
    assert Sum(FieldWidths[7..]) == 42;
    assert Sum(FieldWidths[6..]) == 45;
    assert Sum(FieldWidths[5..]) == 46;
    assert Sum(FieldWidths[4..]) == 48;
    assert Sum(FieldWidths[3..]) == 52;
    assert Sum(FieldWidths[2..]) == 56;
    assert Sum(FieldWidths[1..]) == 60;
  }
}
