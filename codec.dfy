/** The encoders and decoders of the packed fields, as pure functions of the
    raw storage: the 16-bit attributes word, the flags byte, the three-byte
    mana/health region and the 42-byte name buffer. Each encoder models Go's
    truncating conversions exactly; the lemmas beside it say what the
    matching decoder reads back and which co-located bits it leaves alone. */
module Codec {
  import opened Layout

  // ---------------------------------------------------------------------
  // Attributes word: respect in bits 0-3, strength 4-7, experience 8-11,
  // level 12-15.

  /** The accessor Respect. */
  function Respect(attributes: bv16): (r: Int)
    ensures r < 16
  {
    (attributes & RespectMask) as Int
  }

  /** The accessor Strength. */
  function Strength(attributes: bv16): (r: Int)
    ensures r < 16
  {
    ((attributes & StrengthMask) as Int) >> StrengthShift
  }

  /** The accessor Experience. */
  function Experience(attributes: bv16): (r: Int)
    ensures r < 16
  {
    ((attributes & ExperienceMask) as Int) >> ExperienceShift
  }

  /** The accessor Level. */
  function Level(attributes: bv16): (r: Int)
    ensures r < 16
  {
    ((attributes & LevelMask) as Int) >> LevelShift
  }

  /** WithRespect, given uint16(respect): clear the respect mask, OR in the value unshifted. */
  function PutRespect(attributes: bv16, respect: bv16): bv16 {
    (attributes & !RespectMask) | respect
  }

  /** WithStrength: clear the strength mask, OR in the uint16 value << 4. */
  function PutStrength(attributes: bv16, strength: bv16): bv16 {
    (attributes & !StrengthMask) | (strength << StrengthShift)
  }

  /** WithExperience: clear the experience mask, OR in the uint16 value << 8. */
  function PutExperience(attributes: bv16, experience: bv16): bv16 {
    (attributes & !ExperienceMask) | (experience << ExperienceShift)
  }

  /** WithLevel: clear the level mask, OR in the uint16 value << 12. */
  function PutLevel(attributes: bv16, level: bv16): bv16 {
    (attributes & !LevelMask) | (level << LevelShift)
  }

  /** uint16(v) of a value in 0..15 is that value. */
  lemma Uint16OfNibble(v: Int)
    ensures v < 16 ==> ToUint16(v) < 16 && ToUint16(v) as Int == v
  {
  }

  /** The low four bits of uint16(v) are the low four bits of v. */
  lemma Uint16LowNibble(v: Int)
    ensures (ToUint16(v) & 0xF) as Int == v & 0xF
  {
  }

  // Facts about one setter and one field each, on the uint16 value u.

  lemma RespectReadsBack(a: bv16, u: bv16) ensures Respect(PutRespect(a, u)) == (u & 0xF) as Int {}
  lemma RespectKeepsWord(a: bv16, u: bv16) ensures u < 16 ==> PutRespect(a, u) & !RespectMask == a & !RespectMask {}
  lemma RespectKeepsStrength(a: bv16, u: bv16) ensures u < 16 ==> Strength(PutRespect(a, u)) == Strength(a) {}
  lemma RespectKeepsExperience(a: bv16, u: bv16) ensures u < 16 ==> Experience(PutRespect(a, u)) == Experience(a) {}
  lemma RespectKeepsLevel(a: bv16, u: bv16) ensures u < 16 ==> Level(PutRespect(a, u)) == Level(a) {}

  lemma StrengthReadsBack(a: bv16, u: bv16) ensures Strength(PutStrength(a, u)) == (u & 0xF) as Int {}
  lemma StrengthKeepsWord(a: bv16, u: bv16) ensures u < 16 ==> PutStrength(a, u) & !StrengthMask == a & !StrengthMask {}
  lemma StrengthKeepsRespect(a: bv16, u: bv16) ensures Respect(PutStrength(a, u)) == Respect(a) {}
  lemma StrengthKeepsExperience(a: bv16, u: bv16) ensures u < 16 ==> Experience(PutStrength(a, u)) == Experience(a) {}
  lemma StrengthKeepsLevel(a: bv16, u: bv16) ensures u < 16 ==> Level(PutStrength(a, u)) == Level(a) {}

  lemma ExperienceReadsBack(a: bv16, u: bv16) ensures Experience(PutExperience(a, u)) == (u & 0xF) as Int {}
  lemma ExperienceKeepsWord(a: bv16, u: bv16) ensures u < 16 ==> PutExperience(a, u) & !ExperienceMask == a & !ExperienceMask {}
  lemma ExperienceKeepsRespect(a: bv16, u: bv16) ensures Respect(PutExperience(a, u)) == Respect(a) {}
  lemma ExperienceKeepsStrength(a: bv16, u: bv16) ensures Strength(PutExperience(a, u)) == Strength(a) {}
  lemma ExperienceKeepsLevel(a: bv16, u: bv16) ensures u < 16 ==> Level(PutExperience(a, u)) == Level(a) {}

  lemma LevelReadsBack(a: bv16, u: bv16) ensures Level(PutLevel(a, u)) == (u & 0xF) as Int {}
  lemma LevelKeepsWord(a: bv16, u: bv16) ensures PutLevel(a, u) & !LevelMask == a & !LevelMask {}
  lemma LevelKeepsRespect(a: bv16, u: bv16) ensures Respect(PutLevel(a, u)) == Respect(a) {}
  lemma LevelKeepsStrength(a: bv16, u: bv16) ensures Strength(PutLevel(a, u)) == Strength(a) {}
  lemma LevelKeepsExperience(a: bv16, u: bv16) ensures Experience(PutLevel(a, u)) == Experience(a) {}

  lemma RespectOverwrite(a: bv16, u: bv16, u2: bv16) ensures u < 16 ==> PutRespect(PutRespect(a, u), u2) == PutRespect(a, u2) {}
  lemma StrengthOverwrite(a: bv16, u: bv16, u2: bv16) ensures u < 16 ==> PutStrength(PutStrength(a, u), u2) == PutStrength(a, u2) {}
  lemma ExperienceOverwrite(a: bv16, u: bv16, u2: bv16) ensures u < 16 ==> PutExperience(PutExperience(a, u), u2) == PutExperience(a, u2) {}
  lemma LevelOverwrite(a: bv16, u: bv16, u2: bv16) ensures PutLevel(PutLevel(a, u), u2) == PutLevel(a, u2) {}

  lemma RespectStrengthCommute(a: bv16, u: bv16, u2: bv16)
    ensures u < 16 && u2 < 16 ==> PutStrength(PutRespect(a, u), u2) == PutRespect(PutStrength(a, u2), u) {}
  lemma RespectExperienceCommute(a: bv16, u: bv16, u2: bv16)
    ensures u < 16 && u2 < 16 ==> PutExperience(PutRespect(a, u), u2) == PutRespect(PutExperience(a, u2), u) {}
  lemma RespectLevelCommute(a: bv16, u: bv16, u2: bv16)
    ensures u < 16 && u2 < 16 ==> PutLevel(PutRespect(a, u), u2) == PutRespect(PutLevel(a, u2), u) {}
  lemma StrengthExperienceCommute(a: bv16, u: bv16, u2: bv16)
    ensures u < 16 && u2 < 16 ==> PutExperience(PutStrength(a, u), u2) == PutStrength(PutExperience(a, u2), u) {}
  lemma StrengthLevelCommute(a: bv16, u: bv16, u2: bv16)
    ensures u < 16 && u2 < 16 ==> PutLevel(PutStrength(a, u), u2) == PutStrength(PutLevel(a, u2), u) {}
  lemma ExperienceLevelCommute(a: bv16, u: bv16, u2: bv16)
    ensures u < 16 && u2 < 16 ==> PutLevel(PutExperience(a, u), u2) == PutExperience(PutLevel(a, u2), u) {}

  /** WithRespect: the field reads back the low four bits of the value
      (an out-of-range value also ORs into the three other fields); for a
      value in 0..15 no other bit of the word changes. */
  lemma PutRespectSpec(a: bv16, v: Int)
    ensures Respect(PutRespect(a, ToUint16(v))) == v & 0xF
    ensures v < 16 ==> PutRespect(a, ToUint16(v)) & !RespectMask == a & !RespectMask
    ensures v < 16 ==> Strength(PutRespect(a, ToUint16(v))) == Strength(a)
    ensures v < 16 ==> Experience(PutRespect(a, ToUint16(v))) == Experience(a)
    ensures v < 16 ==> Level(PutRespect(a, ToUint16(v))) == Level(a)
  {
    RespectReadsBack(a, ToUint16(v));
    Uint16LowNibble(v);
    if v < 16 {
      Uint16OfNibble(v);
      RespectKeepsWord(a, ToUint16(v));
      RespectKeepsStrength(a, ToUint16(v));
      RespectKeepsExperience(a, ToUint16(v));
      RespectKeepsLevel(a, ToUint16(v));
    }
  }

  /** WithStrength: the field reads back the low four bits of the value and
      respect is kept whatever the value; for a value in 0..15 no other bit changes. */
  lemma PutStrengthSpec(a: bv16, v: Int)
    ensures Strength(PutStrength(a, ToUint16(v))) == v & 0xF
    ensures Respect(PutStrength(a, ToUint16(v))) == Respect(a)
    ensures v < 16 ==> PutStrength(a, ToUint16(v)) & !StrengthMask == a & !StrengthMask
    ensures v < 16 ==> Experience(PutStrength(a, ToUint16(v))) == Experience(a)
    ensures v < 16 ==> Level(PutStrength(a, ToUint16(v))) == Level(a)
  {
    StrengthReadsBack(a, ToUint16(v));
    Uint16LowNibble(v);
    StrengthKeepsRespect(a, ToUint16(v));
    if v < 16 {
      Uint16OfNibble(v);
      StrengthKeepsWord(a, ToUint16(v));
      StrengthKeepsExperience(a, ToUint16(v));
      StrengthKeepsLevel(a, ToUint16(v));
    }
  }

  /** WithExperience: the field reads back the low four bits of the value and
      respect and strength are kept whatever the value; for a value in 0..15
      no other bit changes. */
  lemma PutExperienceSpec(a: bv16, v: Int)
    ensures Experience(PutExperience(a, ToUint16(v))) == v & 0xF
    ensures Respect(PutExperience(a, ToUint16(v))) == Respect(a)
    ensures Strength(PutExperience(a, ToUint16(v))) == Strength(a)
    ensures v < 16 ==> PutExperience(a, ToUint16(v)) & !ExperienceMask == a & !ExperienceMask
    ensures v < 16 ==> Level(PutExperience(a, ToUint16(v))) == Level(a)
  {
    ExperienceReadsBack(a, ToUint16(v));
    Uint16LowNibble(v);
    ExperienceKeepsRespect(a, ToUint16(v));
    ExperienceKeepsStrength(a, ToUint16(v));
    if v < 16 {
      Uint16OfNibble(v);
      ExperienceKeepsWord(a, ToUint16(v));
      ExperienceKeepsLevel(a, ToUint16(v));
    }
  }

  /** WithLevel: the shift by 12 drops every bit above the nibble, so the
      field reads back the low four bits and no other bit changes, whatever the value. */
  lemma PutLevelSpec(a: bv16, v: Int)
    ensures Level(PutLevel(a, ToUint16(v))) == v & 0xF
    ensures Respect(PutLevel(a, ToUint16(v))) == Respect(a)
    ensures Strength(PutLevel(a, ToUint16(v))) == Strength(a)
    ensures Experience(PutLevel(a, ToUint16(v))) == Experience(a)
    ensures PutLevel(a, ToUint16(v)) & !LevelMask == a & !LevelMask
  {
    LevelReadsBack(a, ToUint16(v));
    Uint16LowNibble(v);
    LevelKeepsRespect(a, ToUint16(v));
    LevelKeepsStrength(a, ToUint16(v));
    LevelKeepsExperience(a, ToUint16(v));
    LevelKeepsWord(a, ToUint16(v));
  }

  /** Re-applying a quartet setter overwrites an earlier value in 0..15
      (for WithLevel, any earlier value). */
  lemma QuartetSettersOverwrite(a: bv16, v: Int, w: Int)
    requires v < 16
    ensures PutRespect(PutRespect(a, ToUint16(v)), ToUint16(w)) == PutRespect(a, ToUint16(w))
    ensures PutStrength(PutStrength(a, ToUint16(v)), ToUint16(w)) == PutStrength(a, ToUint16(w))
    ensures PutExperience(PutExperience(a, ToUint16(v)), ToUint16(w)) == PutExperience(a, ToUint16(w))
    ensures PutLevel(PutLevel(a, ToUint16(v)), ToUint16(w)) == PutLevel(a, ToUint16(w))
  {
    Uint16OfNibble(v);
    RespectOverwrite(a, ToUint16(v), ToUint16(w));
    StrengthOverwrite(a, ToUint16(v), ToUint16(w));
    ExperienceOverwrite(a, ToUint16(v), ToUint16(w));
    LevelOverwrite(a, ToUint16(v), ToUint16(w));
  }

  /** Setters of two different quartet fields commute for values in 0..15,
      so applying the four of them in any order yields the same word. */
  lemma QuartetSettersCommute(a: bv16, v: Int, w: Int)
    requires v < 16 && w < 16
    ensures PutStrength(PutRespect(a, ToUint16(v)), ToUint16(w)) == PutRespect(PutStrength(a, ToUint16(w)), ToUint16(v))
    ensures PutExperience(PutRespect(a, ToUint16(v)), ToUint16(w)) == PutRespect(PutExperience(a, ToUint16(w)), ToUint16(v))
    ensures PutLevel(PutRespect(a, ToUint16(v)), ToUint16(w)) == PutRespect(PutLevel(a, ToUint16(w)), ToUint16(v))
    ensures PutExperience(PutStrength(a, ToUint16(v)), ToUint16(w)) == PutStrength(PutExperience(a, ToUint16(w)), ToUint16(v))
    ensures PutLevel(PutStrength(a, ToUint16(v)), ToUint16(w)) == PutStrength(PutLevel(a, ToUint16(w)), ToUint16(v))
    ensures PutLevel(PutExperience(a, ToUint16(v)), ToUint16(w)) == PutExperience(PutLevel(a, ToUint16(w)), ToUint16(v))
  {
    Uint16OfNibble(v);
    Uint16OfNibble(w);
    RespectStrengthCommute(a, ToUint16(v), ToUint16(w));
    RespectExperienceCommute(a, ToUint16(v), ToUint16(w));
    RespectLevelCommute(a, ToUint16(v), ToUint16(w));
    StrengthExperienceCommute(a, ToUint16(v), ToUint16(w));
    StrengthLevelCommute(a, ToUint16(v), ToUint16(w));
    ExperienceLevelCommute(a, ToUint16(v), ToUint16(w));
  }

  // ---------------------------------------------------------------------
  // Flags byte.

  /** The accessors HasHouse, HasGun and HasFamilty. */
  predicate HasFlag(flags: bv8, flag: bv8) {
    flags & flag != 0
  }

  /** `flags |= flag`, as WithHouse, WithGun, WithFamily and WithType do. */
  function AddFlag(flags: bv8, flag: bv8): (r: bv8)
    ensures r & flag == flag
    ensures r & !flag == flags & !flag
  {
    flags | flag
  }

  /** Setting a flag twice is the same as setting it once. */
  lemma AddFlagIdempotent(flags: bv8, flag: bv8)
    ensures AddFlag(AddFlag(flags, flag), flag) == AddFlag(flags, flag)
  {
  }

  /** Each flag is a bit of its own: setting one makes its accessor true and
      leaves every other flag and type bit as it was. */
  lemma AddFlagIndependent(flags: bv8, flag: bv8, other: bv8)
    requires flag in {HasHouseFlag, HasWeaponFlag, HasFamilyFlag}
    requires other in {HasHouseFlag, HasWeaponFlag, HasFamilyFlag, HasBuilderTypeFlag,
                       HasBlacksmithTypeFlag, HasWarriorTypeFlag}
    ensures HasFlag(AddFlag(flags, flag), flag)
    ensures other != flag ==> HasFlag(AddFlag(flags, flag), other) == HasFlag(flags, other)
  {
  }

  /** The flag bit that stands for a person type; none for an unknown type. */
  function TypeFlag(personType: Int): (b: bv8)
    ensures b & !TypeFlags == 0
    ensures b == 0 <==>
              personType !in {BuilderGamePersonType, BlacksmithGamePersonType, WarriorGamePersonType}
  {
    if personType == BuilderGamePersonType then HasBuilderTypeFlag
    else if personType == BlacksmithGamePersonType then HasBlacksmithTypeFlag
    else if personType == WarriorGamePersonType then HasWarriorTypeFlag
    else 0
  }

  /** The accessor Type: blacksmith takes precedence over builder, builder
      over warrior, and no type bit at all reads as 0, the builder type. */
  function TypeOf(flags: bv8): (r: Int)
    ensures r in {BuilderGamePersonType, BlacksmithGamePersonType, WarriorGamePersonType}
    ensures r == BlacksmithGamePersonType <==> HasFlag(flags, HasBlacksmithTypeFlag)
    ensures r == WarriorGamePersonType <==>
              !HasFlag(flags, HasBlacksmithTypeFlag) && !HasFlag(flags, HasBuilderTypeFlag)
              && HasFlag(flags, HasWarriorTypeFlag)
  {
    if HasFlag(flags, HasBlacksmithTypeFlag) then BlacksmithGamePersonType
    else if HasFlag(flags, HasBuilderTypeFlag) then BuilderGamePersonType
    else if HasFlag(flags, HasWarriorTypeFlag) then WarriorGamePersonType
    else 0
  }

  /** WithType: three independent `if`s, each ORing one type bit. */
  function PutType(flags: bv8, personType: Int): bv8 {
    var f0 := if personType == BuilderGamePersonType then flags | HasBuilderTypeFlag else flags;
    var f1 := if personType == WarriorGamePersonType then f0 | HasWarriorTypeFlag else f0;
    if personType == BlacksmithGamePersonType then f1 | HasBlacksmithTypeFlag else f1
  }

  /** WithType adds exactly the matching type bit, so an unknown type leaves
      the flags unchanged and no non-type bit ever changes. */
  lemma PutTypeAddsTypeFlag(flags: bv8, personType: Int)
    ensures PutType(flags, personType) == flags | TypeFlag(personType)
    ensures PutType(flags, personType) & !TypeFlags == flags & !TypeFlags
  {
  }

  /** What Type() reads after WithType(t): blacksmith always wins; builder
      wins unless a blacksmith bit was already set; warrior wins only over
      a byte without builder and blacksmith bits. */
  lemma PutTypeReadsBack(flags: bv8, personType: Int)
    ensures personType == BlacksmithGamePersonType ==>
              TypeOf(PutType(flags, personType)) == BlacksmithGamePersonType
    ensures personType == BuilderGamePersonType && !HasFlag(flags, HasBlacksmithTypeFlag) ==>
              TypeOf(PutType(flags, personType)) == BuilderGamePersonType
    ensures personType == WarriorGamePersonType && !HasFlag(flags, HasBlacksmithTypeFlag)
            && !HasFlag(flags, HasBuilderTypeFlag) ==>
              TypeOf(PutType(flags, personType)) == WarriorGamePersonType
  {
  }

  /** Setting house, weapon or family leaves the type unchanged. */
  lemma AddFlagKeepsType(flags: bv8, flag: bv8)
    ensures flag in {HasHouseFlag, HasWeaponFlag, HasFamilyFlag} ==>
              TypeOf(AddFlag(flags, flag)) == TypeOf(flags)
  {
  }

  /** Setting house, weapon or family leaves the type bits unchanged. */
  lemma FlagKeepsTypeBits(flags: bv8, flag: bv8)
    ensures flag in {HasHouseFlag, HasWeaponFlag, HasFamilyFlag} ==>
              AddFlag(flags, flag) & TypeFlags == flags & TypeFlags
  {
  }

  /** Setting a type leaves house, weapon and family unchanged. */
  lemma PutTypeKeepsFlags(flags: bv8, personType: Int)
    ensures HasFlag(PutType(flags, personType), HasHouseFlag) == HasFlag(flags, HasHouseFlag)
    ensures HasFlag(PutType(flags, personType), HasWeaponFlag) == HasFlag(flags, HasWeaponFlag)
    ensures HasFlag(PutType(flags, personType), HasFamilyFlag) == HasFlag(flags, HasFamilyFlag)
  {
  }

  /** On a flags byte with no type bit, setting one known type reads back as that type. */
  lemma TypeRoundTrip(flags: bv8, personType: Int)
    requires flags & TypeFlags == 0
    requires personType in {BuilderGamePersonType, BlacksmithGamePersonType, WarriorGamePersonType}
    ensures TypeOf(PutType(flags, personType)) == personType
  {
    PutTypeReadsBack(flags, personType);
  }

  // ---------------------------------------------------------------------
  // Mana/health region: two 10-bit values in three bytes. Mana lives in
  // byte 0 (its top eight bits) and bits 6-7 of byte 1 (its low two);
  // health in bits 0-1 of byte 1 (its top two) and byte 2 (its low eight).

  /** The accessor Mana, from bytes 0 and 1. */
  function Mana(b0: bv8, b1: bv8): (r: Int)
    ensures r < 1024
  {
    ((b0 as Int) << ManaShiftTopBits) + (((b1 & ManaMaskLowBits) >> ManaShiftLowBits) as Int)
  }

  /** The accessor Health, from bytes 1 and 2. */
  function Health(b1: bv8, b2: bv8): (r: Int)
    ensures r < 1024
  {
    (((b1 as Int) & HealthMaskTopBits) << HealthShiftTopBits) + (b2 as Int)
  }

  /** WithMana stores byte(mana >> 2) into byte 0 ... */
  function ManaTopByte(mana: Int): bv8 {
    ToByte(ShiftRight(mana, ManaShiftTopBits))
  }

  /** ... and ORs byte((mana << 6) & 0xC0) into byte 1. */
  function ManaLowBits(mana: Int): bv8 {
    ToByte((mana << (ManaShiftLowBits as Int)) & (ManaMaskLowBits as Int))
  }

  /** WithHealth ORs byte(health >> 8) into byte 1 ... */
  function HealthTopBits(health: Int): bv8 {
    ToByte(ShiftRight(health, HealthShiftTopBits))
  }

  /** ... and stores byte(health & 0xFF) into byte 2. */
  function HealthLowByte(health: Int): bv8 {
    ToByte(health & HealthMaskLowBits)
  }

  // Go's >> on an int is arithmetic; bits 2-9 (for mana) and 8-9 (for
  // health) of the value reach the byte whatever its sign.

  lemma ManaTopOfNonNegative(mana: Int)
    ensures !Negative(mana) ==> (ManaTopByte(mana) as Int) << ManaShiftTopBits == mana & 0x3FC
  {
  }

  lemma ManaTopOfNegative(mana: Int)
    ensures Negative(mana) ==> (ManaTopByte(mana) as Int) << ManaShiftTopBits == mana & 0x3FC
  {
  }

  /** Byte 0 holds bits 2-9 of the mana value. */
  lemma ManaTopByteBits(mana: Int)
    ensures (ManaTopByte(mana) as Int) << ManaShiftTopBits == mana & 0x3FC
  {
    if Negative(mana) {
      ManaTopOfNegative(mana);
    } else {
      ManaTopOfNonNegative(mana);
    }
  }

  /** The OR into a byte 1 with clear mana bits leaves bits 0-1 of the value in bits 6-7. */
  lemma ManaLowBitsRead(b1: bv8, mana: Int)
    ensures b1 & ManaMaskLowBits == 0 ==>
              (((b1 | ManaLowBits(mana)) & ManaMaskLowBits) >> ManaShiftLowBits) as Int == mana & 0x3
  {
  }

  /** ManaLowBits sets nothing outside bits 6-7. */
  lemma ManaLowBitsOnly(mana: Int)
    ensures ManaLowBits(mana) & !ManaMaskLowBits == 0
  {
  }

  lemma HealthTopOfNonNegative(b1: bv8, health: Int)
    ensures b1 & (HealthMaskTopBits as bv8) == 0 && !Negative(health) ==>
              (((b1 | HealthTopBits(health)) as Int) & HealthMaskTopBits) << HealthShiftTopBits
              == health & 0x300
  {
  }

  lemma HealthTopOfNegative(b1: bv8, health: Int)
    ensures b1 & (HealthMaskTopBits as bv8) == 0 && Negative(health) ==>
              (((b1 | HealthTopBits(health)) as Int) & HealthMaskTopBits) << HealthShiftTopBits
              == health & 0x300
  {
  }

  /** The OR into a byte 1 with clear health bits leaves bits 8-9 of the value in bits 0-1. */
  lemma HealthTopBitsRead(b1: bv8, health: Int)
    requires b1 & (HealthMaskTopBits as bv8) == 0
    ensures (((b1 | HealthTopBits(health)) as Int) & HealthMaskTopBits) << HealthShiftTopBits
            == health & 0x300
  {
    if Negative(health) {
      HealthTopOfNegative(b1, health);
    } else {
      HealthTopOfNonNegative(b1, health);
    }
  }

  /** For a value in 0..1023, HealthTopBits sets nothing outside bits 0-1. */
  lemma HealthTopBitsOnly(health: Int)
    ensures health < 1024 ==> HealthTopBits(health) & !(HealthMaskTopBits as bv8) == 0
  {
  }

  /** Byte 2 holds bits 0-7 of the health value. */
  lemma HealthLowByteBits(health: Int)
    ensures HealthLowByte(health) as Int == health & 0xFF
  {
  }

  /** Two disjoint bit ranges of a value add up to their union. */
  lemma SplitTenBits(v: Int)
    ensures (v & 0x3FC) + (v & 0x3) == v & 0x3FF
    ensures (v & 0x300) + (v & 0xFF) == v & 0x3FF
  {
  }

  /** ORing in bits confined to the mana bits keeps the rest of byte 1. */
  lemma OrManaBits(b: bv8, x: bv8)
    ensures x & !ManaMaskLowBits == 0 ==>
              (b | x) & !ManaMaskLowBits == b & !ManaMaskLowBits
              && (b | x) & (HealthMaskTopBits as bv8) == b & (HealthMaskTopBits as bv8)
  {
  }

  /** ORing in bits confined to the health bits keeps the rest of byte 1. */
  lemma OrHealthBits(b: bv8, x: bv8)
    ensures x & !(HealthMaskTopBits as bv8) == 0 ==>
              (b | x) & !(HealthMaskTopBits as bv8) == b & !(HealthMaskTopBits as bv8)
              && (b | x) & ManaMaskLowBits == b & ManaMaskLowBits
  {
  }

  /** Health reads only the health bits of byte 1. */
  lemma HealthOfSameBits(b1: bv8, c1: bv8, b2: bv8)
    ensures b1 & (HealthMaskTopBits as bv8) == c1 & (HealthMaskTopBits as bv8) ==>
              Health(b1, b2) == Health(c1, b2)
  {
  }

  /** Mana reads only the mana bits of byte 1. */
  lemma ManaOfSameBits(b0: bv8, b1: bv8, c1: bv8)
    ensures b1 & ManaMaskLowBits == c1 & ManaMaskLowBits ==> Mana(b0, b1) == Mana(b0, c1)
  {
  }

  /** On a byte 1 whose mana bits are clear, mana reads back as the low ten
      bits of the value, negative values included. */
  lemma ManaReadsBack(b1: bv8, mana: Int)
    requires b1 & ManaMaskLowBits == 0
    ensures Mana(ManaTopByte(mana), b1 | ManaLowBits(mana)) == mana & 0x3FF
  {
    ManaTopByteBits(mana);
    ManaLowBitsRead(b1, mana);
    SplitTenBits(mana);
  }

  /** WithMana touches only the mana bits of byte 1, so health and the
      reserved bits are never changed. */
  lemma ManaKeepsHealth(b1: bv8, b2: bv8, mana: Int)
    ensures (b1 | ManaLowBits(mana)) & !ManaMaskLowBits == b1 & !ManaMaskLowBits
    ensures (b1 | ManaLowBits(mana)) & (HealthMaskTopBits as bv8) == b1 & (HealthMaskTopBits as bv8)
    ensures Health(b1 | ManaLowBits(mana), b2) == Health(b1, b2)
  {
    ManaLowBitsOnly(mana);
    OrManaBits(b1, ManaLowBits(mana));
    HealthOfSameBits(b1 | ManaLowBits(mana), b1, b2);
  }

  /** On a byte 1 whose health bits are clear, health reads back as the low
      ten bits of the value, negative values included. */
  lemma HealthReadsBack(b1: bv8, health: Int)
    requires b1 & (HealthMaskTopBits as bv8) == 0
    ensures Health(b1 | HealthTopBits(health), HealthLowByte(health)) == health & 0x3FF
  {
    HealthTopBitsRead(b1, health);
    HealthLowByteBits(health);
    SplitTenBits(health);
  }

  /** For a value in 0..1023, WithHealth ORs only into the health bits of
      byte 1, so mana and the reserved bits are unchanged. */
  lemma HealthKeepsMana(b0: bv8, b1: bv8, health: Int)
    requires health < 1024
    ensures (b1 | HealthTopBits(health)) & !(HealthMaskTopBits as bv8) == b1 & !(HealthMaskTopBits as bv8)
    ensures (b1 | HealthTopBits(health)) & ManaMaskLowBits == b1 & ManaMaskLowBits
    ensures Mana(b0, b1 | HealthTopBits(health)) == Mana(b0, b1)
  {
    HealthTopBitsOnly(health);
    OrHealthBits(b1, HealthTopBits(health));
    ManaOfSameBits(b0, b1 | HealthTopBits(health), b1);
  }

  /** A value in 0..1023 is its own low ten bits. */
  lemma TenBits(v: Int)
    ensures v < 1024 ==> v & 0x3FF == v
  {
  }

  /** Neither stat ORs anything into the reserved bits. */
  lemma ReservedBitsUntouched(mana: Int, health: Int)
    ensures health < 1024 ==> (ManaLowBits(mana) | HealthTopBits(health)) & ReservedBits == 0
  {
  }

  /** WithMana then WithHealth on a zeroed region. */
  lemma ManaThenHealth(mana: Int, health: Int)
    requires mana < 1024 && health < 1024
    ensures var b1 := (0 | ManaLowBits(mana)) | HealthTopBits(health);
            Mana(ManaTopByte(mana), b1) == mana && Health(b1, HealthLowByte(health)) == health
            && b1 & ReservedBits == 0
  {
    var m1 := 0 | ManaLowBits(mana);
    ManaReadsBack(0, mana);
    ManaKeepsHealth(0, 0, mana);
    HealthKeepsMana(ManaTopByte(mana), m1, health);
    HealthReadsBack(m1, health);
    TenBits(mana);
    TenBits(health);
    ReservedBitsUntouched(mana, health);
  }

  lemma HealthThenManaReadsMana(mana: Int, health: Int)
    requires mana < 1024 && health < 1024
    ensures Mana(ManaTopByte(mana), (0 | HealthTopBits(health)) | ManaLowBits(mana)) == mana
  {
    HealthKeepsMana(0, 0, health);
    ManaReadsBack(0 | HealthTopBits(health), mana);
    TenBits(mana);
  }

  lemma HealthThenManaReadsHealth(mana: Int, health: Int)
    requires health < 1024
    ensures Health((0 | HealthTopBits(health)) | ManaLowBits(mana), HealthLowByte(health)) == health
  {
    HealthReadsBack(0, health);
    ManaKeepsHealth(0 | HealthTopBits(health), HealthLowByte(health), mana);
    TenBits(health);
  }

  /** WithHealth then WithMana on a zeroed region. */
  lemma HealthThenMana(mana: Int, health: Int)
    requires mana < 1024 && health < 1024
    ensures var b1 := (0 | HealthTopBits(health)) | ManaLowBits(mana);
            Mana(ManaTopByte(mana), b1) == mana && Health(b1, HealthLowByte(health)) == health
            && b1 & ReservedBits == 0
  {
    HealthThenManaReadsMana(mana, health);
    HealthThenManaReadsHealth(mana, health);
    ReservedBitsUntouched(mana, health);
    assert (0 | HealthTopBits(health)) | ManaLowBits(mana) == ManaLowBits(mana) | HealthTopBits(health);
  }

  /** Mana and health set once each on a zeroed region, in either order,
      read back exactly and leave the reserved bits zero. */
  lemma ManaHealthRoundTrip(mana: Int, health: Int)
    requires mana < 1024 && health < 1024
    ensures var b1 := (0 | ManaLowBits(mana)) | HealthTopBits(health);
            Mana(ManaTopByte(mana), b1) == mana && Health(b1, HealthLowByte(health)) == health
            && b1 & ReservedBits == 0
    ensures var b1 := (0 | HealthTopBits(health)) | ManaLowBits(mana);
            Mana(ManaTopByte(mana), b1) == mana && Health(b1, HealthLowByte(health)) == health
            && b1 & ReservedBits == 0
  {
    ManaThenHealth(mana, health);
    HealthThenMana(mana, health);
  }

  // ---------------------------------------------------------------------
  // Name buffer.

  /** WithName: copy the bytes into a zeroed 43-byte slice, keep its first 42. */
  function PutName(name: seq<bv8>): (r: seq<bv8>)
    ensures |r| == NameLength
    ensures forall i :: 0 <= i < NameLength ==> r[i] == if i < |name| then name[i] else 0
  {
    var copied := if |name| >= NameLength + 1 then name[..NameLength + 1]
                  else name + seq(NameLength + 1 - |name|, _ => 0 as bv8);
    copied[..NameLength]
  }

  /** The bytes before the first zero byte, or all of them if none is zero. */
  function UntilZero(buffer: seq<bv8>): (r: seq<bv8>)
    ensures |r| <= |buffer| && r == buffer[..|r|]
    ensures forall i :: 0 <= i < |r| ==> r[i] != 0
    ensures |r| < |buffer| ==> buffer[|r|] == 0
  {
    if buffer == [] || buffer[0] == 0 then [] else [buffer[0]] + UntilZero(buffer[1..])
  }

  /** UntilZero is the only prefix that is free of zeros and stops at a zero or at the end. */
  lemma {:induction false} UntilZeroUnique(buffer: seq<bv8>, end: nat)
    requires end <= |buffer|
    requires forall i :: 0 <= i < end ==> buffer[i] != 0
    requires end < |buffer| ==> buffer[end] == 0
    ensures UntilZero(buffer) == buffer[..end]
  {
    if end > 0 {
      var rest := buffer[1..];
      assert forall i :: 0 <= i < end - 1 ==> rest[i] == buffer[i + 1];
      UntilZeroUnique(rest, end - 1);
      assert buffer[..end] == [buffer[0]] + rest[..end - 1];
    }
  }

  /** A name with no zero byte among its first 42 reads back as its first 42
      bytes: whole when it fits. */
  lemma NameRoundTrip(name: seq<bv8>)
    requires forall i :: 0 <= i < |name| && i < NameLength ==> name[i] != 0
    ensures |name| <= NameLength ==> UntilZero(PutName(name)) == name
    ensures |name| > NameLength ==> UntilZero(PutName(name)) == name[..NameLength]
  {
    var buffer := PutName(name);
    var end := if |name| < NameLength then |name| else NameLength;
    UntilZeroUnique(buffer, end);
    assert buffer[..end] == name[..end];
  }
}
