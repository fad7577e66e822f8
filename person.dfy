/** The GamePerson record, its functional options and its accessors.
    A record is a class whose fields are the packed storage; `State()`
    abstracts it to a `Snapshot` value, on which `Step` describes one option
    and `Run` a whole option list applied left to right. `ViewOf` is what
    the accessors read, and `Expected` says what each option promises about
    them. */
module Person {
  import opened Layout
  import opened Codec

  /** An Option closure, by the With* call that made it. */
  datatype Option =
    | WithName(name: seq<bv8>)
    | WithCoordinates(x: Int, y: Int, z: Int)
    | WithGold(gold: Int)
    | WithMana(mana: Int)
    | WithHealth(health: Int)
    | WithRespect(respect: Int)
    | WithStrength(strength: Int)
    | WithExperience(experience: Int)
    | WithLevel(level: Int)
    | WithHouse
    | WithGun
    | WithFamily
    | WithType(personType: Int)

  /** The storage of a record, manahealth as its three bytes. */
  datatype Snapshot = Snapshot(
    x: bv32, y: bv32, z: bv32, gold: bv32,
    attributes: bv16,
    flags: bv8,
    mh0: bv8, mh1: bv8, mh2: bv8,
    name: seq<bv8>)

  /** The zero value GamePerson{}. */
  const Zero: Snapshot := Snapshot(0, 0, 0, 0, 0, 0, 0, 0, 0, seq(NameLength, _ => 0))

  /** What one option closure does to the storage. */
  function Step(s: Snapshot, o: Option): Snapshot {
    match o
    case WithName(n) => SetName(s, n)
    case WithCoordinates(x, y, z) => SetCoordinates(s, x, y, z)
    case WithGold(g) => SetGold(s, g)
    case WithMana(m) => SetMana(s, m)
    case WithHealth(h) => SetHealth(s, h)
    case WithRespect(v) => SetAttributes(s, PutRespect(s.attributes, ToUint16(v)))
    case WithStrength(v) => SetAttributes(s, PutStrength(s.attributes, ToUint16(v)))
    case WithExperience(v) => SetAttributes(s, PutExperience(s.attributes, ToUint16(v)))
    case WithLevel(v) => SetAttributes(s, PutLevel(s.attributes, ToUint16(v)))
    case WithHouse => SetFlags(s, AddFlag(s.flags, HasHouseFlag))
    case WithGun => SetFlags(s, AddFlag(s.flags, HasWeaponFlag))
    case WithFamily => SetFlags(s, AddFlag(s.flags, HasFamilyFlag))
    case WithType(t) => SetFlags(s, PutType(s.flags, t))
  }

  function SetName(s: Snapshot, n: seq<bv8>): Snapshot {
    s.(name := PutName(n))
  }

  function SetCoordinates(s: Snapshot, x: Int, y: Int, z: Int): Snapshot {
    s.(x := ToInt32(x), y := ToInt32(y), z := ToInt32(z))
  }

  function SetGold(s: Snapshot, g: Int): Snapshot {
    s.(gold := ToInt32(g))
  }

  function SetMana(s: Snapshot, m: Int): Snapshot {
    s.(mh0 := ManaTopByte(m), mh1 := s.mh1 | ManaLowBits(m))
  }

  function SetHealth(s: Snapshot, h: Int): Snapshot {
    s.(mh1 := s.mh1 | HealthTopBits(h), mh2 := HealthLowByte(h))
  }

  function SetAttributes(s: Snapshot, a: bv16): Snapshot {
    s.(attributes := a)
  }

  function SetFlags(s: Snapshot, f: bv8): Snapshot {
    s.(flags := f)
  }

  /** The options applied to s in list order, each once. */
  function Run(s: Snapshot, options: seq<Option>): Snapshot
    decreases |options|
  {
    if options == [] then s else Run(Step(s, options[0]), options[1..])
  }

  /** Applying one more option after a list is running the longer list. */
  lemma {:induction false} RunSnoc(s: Snapshot, options: seq<Option>, o: Option)
    ensures Run(s, options + [o]) == Step(Run(s, options), o)
    decreases |options|
  {
    if options != [] {
      assert (options + [o])[1..] == options[1..] + [o];
      RunSnoc(Step(s, options[0]), options[1..], o);
    }
  }

  // ---------------------------------------------------------------------
  // Which storage each option writes.

  datatype FieldId = X | Y | Z | Gold | Attributes | Flags | ManaHealth0 | ManaHealth1 | ManaHealth2 | Name

  /** The storage fields an option's closure assigns. */
  function Writes(o: Option): set<FieldId> {
    match o
    case WithName(_) => {Name}
    case WithCoordinates(_, _, _) => {X, Y, Z}
    case WithGold(_) => {Gold}
    case WithMana(_) => {ManaHealth0, ManaHealth1}
    case WithHealth(_) => {ManaHealth1, ManaHealth2}
    case WithRespect(_) => {Attributes}
    case WithStrength(_) => {Attributes}
    case WithExperience(_) => {Attributes}
    case WithLevel(_) => {Attributes}
    case WithHouse => {Flags}
    case WithGun => {Flags}
    case WithFamily => {Flags}
    case WithType(_) => {Flags}
  }

  /** s and t hold the same value in the field id. */
  predicate Same(s: Snapshot, t: Snapshot, id: FieldId) {
    match id
    case X => s.x == t.x
    case Y => s.y == t.y
    case Z => s.z == t.z
    case Gold => s.gold == t.gold
    case Attributes => s.attributes == t.attributes
    case Flags => s.flags == t.flags
    case ManaHealth0 => s.mh0 == t.mh0
    case ManaHealth1 => s.mh1 == t.mh1
    case ManaHealth2 => s.mh2 == t.mh2
    case Name => s.name == t.name
  }

  /** An option leaves every field outside its Writes set alone. */
  lemma StepFrame(s: Snapshot, o: Option, id: FieldId)
    ensures id !in Writes(o) ==> Same(Step(s, o), s, id)
  {
  }

  /** A field no option of the list writes keeps its starting value. */
  lemma {:induction false} RunUntouched(s: Snapshot, options: seq<Option>, id: FieldId)
    ensures (forall i :: 0 <= i < |options| ==> id !in Writes(options[i])) ==> Same(Run(s, options), s, id)
    decreases |options|
  {
    if options != [] && forall i :: 0 <= i < |options| ==> id !in Writes(options[i]) {
      StepFrame(s, options[0], id);
      assert forall i :: 0 <= i < |options| - 1 ==> options[1..][i] == options[i + 1];
      RunUntouched(Step(s, options[0]), options[1..], id);
    }
  }

  // ---------------------------------------------------------------------
  // What the accessors read.

  /** The values of Name, X, Y, Z, Gold, Mana, Health, Respect, Strength,
      Experience, Level, HasHouse, HasGun, HasFamilty and Type. */
  datatype View = View(
    name: seq<bv8>,
    x: Int, y: Int, z: Int, gold: Int,
    mana: Int, health: Int,
    respect: Int, strength: Int, experience: Int, level: Int,
    house: bool, gun: bool, family: bool,
    personType: Int)

  function ViewOf(s: Snapshot): View {
    View(UntilZero(s.name),
         FromInt32(s.x), FromInt32(s.y), FromInt32(s.z), FromInt32(s.gold),
         Mana(s.mh0, s.mh1), Health(s.mh1, s.mh2),
         Respect(s.attributes), Strength(s.attributes),
         Experience(s.attributes), Level(s.attributes),
         HasFlag(s.flags, HasHouseFlag), HasFlag(s.flags, HasWeaponFlag),
         HasFlag(s.flags, HasFamilyFlag),
         TypeOf(s.flags))
  }

  /** The values an option stores without loss: a name without zero bytes in its first 42,
      int32 coordinates and gold, ten-bit mana and health, four-bit
      attributes and a known person type. */
  predicate Lossless(o: Option) {
    match o
    case WithName(n) => forall i :: 0 <= i < |n| && i < NameLength ==> n[i] != 0
    case WithCoordinates(x, y, z) => InInt32(x) && InInt32(y) && InInt32(z)
    case WithGold(g) => InInt32(g)
    case WithMana(m) => m < 1024
    case WithHealth(h) => h < 1024
    case WithRespect(v) => v < 16
    case WithStrength(v) => v < 16
    case WithExperience(v) => v < 16
    case WithLevel(v) => v < 16
    case WithHouse => true
    case WithGun => true
    case WithFamily => true
    case WithType(t) => t in {BuilderGamePersonType, BlacksmithGamePersonType, WarriorGamePersonType}
  }

  /** The bits an option ORs into without clearing them first are still clear. */
  predicate Ready(s: Snapshot, o: Option) {
    match o
    case WithMana(_) => s.mh1 & ManaMaskLowBits == 0
    case WithHealth(_) => s.mh1 & (HealthMaskTopBits as bv8) == 0
    case WithType(_) => s.flags & TypeFlags == 0
    case _ => true
  }

  /** When an option promises the accessors a round trip. */
  predicate Sound(s: Snapshot, o: Option) {
    Lossless(o) && Ready(s, o)
  }

  /** What the accessors read after an option: its own accessors return the
      value given (a long name its first 42 bytes), every other one is unchanged. */
  function Expected(v: View, o: Option): View {
    match o
    case WithName(n) => v.(name := if |n| <= NameLength then n else n[..NameLength])
    case WithCoordinates(x, y, z) => v.(x := x, y := y, z := z)
    case WithGold(g) => v.(gold := g)
    case WithMana(m) => v.(mana := m)
    case WithHealth(h) => v.(health := h)
    case WithRespect(r) => v.(respect := r)
    case WithStrength(r) => v.(strength := r)
    case WithExperience(r) => v.(experience := r)
    case WithLevel(r) => v.(level := r)
    case WithHouse => v.(house := true)
    case WithGun => v.(gun := true)
    case WithFamily => v.(family := true)
    case WithType(t) => v.(personType := t)
  }

  // How the view of a snapshot changes when some of its storage is replaced.

  lemma ViewOfName(s: Snapshot, n: seq<bv8>)
    ensures ViewOf(s.(name := n)) == ViewOf(s).(name := UntilZero(n))
  {
  }

  lemma ViewOfCoordinates(s: Snapshot, x: bv32, y: bv32, z: bv32)
    ensures ViewOf(s.(x := x, y := y, z := z))
            == ViewOf(s).(x := FromInt32(x), y := FromInt32(y), z := FromInt32(z))
  {
  }

  lemma ViewOfGold(s: Snapshot, g: bv32)
    ensures ViewOf(s.(gold := g)) == ViewOf(s).(gold := FromInt32(g))
  {
  }

  lemma ViewOfManaHealth(s: Snapshot, b0: bv8, b1: bv8, b2: bv8)
    ensures ViewOf(s.(mh0 := b0, mh1 := b1, mh2 := b2))
            == ViewOf(s).(mana := Mana(b0, b1), health := Health(b1, b2))
  {
  }

  lemma ViewOfAttributes(s: Snapshot, a: bv16)
    ensures ViewOf(s.(attributes := a))
            == ViewOf(s).(respect := Respect(a), strength := Strength(a),
                          experience := Experience(a), level := Level(a))
  {
  }

  lemma ViewOfFlags(s: Snapshot, f: bv8)
    ensures ViewOf(s.(flags := f))
            == ViewOf(s).(house := HasFlag(f, HasHouseFlag), gun := HasFlag(f, HasWeaponFlag),
                          family := HasFlag(f, HasFamilyFlag), personType := TypeOf(f))
  {
  }

  // What each closure makes the accessors read.

  /** WithName: Name() reads the name given, or its first 42 bytes. */
  lemma NameView(s: Snapshot, n: seq<bv8>)
    requires forall i :: 0 <= i < |n| && i < NameLength ==> n[i] != 0
    ensures ViewOf(SetName(s, n)) == ViewOf(s).(name := if |n| <= NameLength then n else n[..NameLength])
  {
    NameRoundTrip(n);
  }

  /** WithCoordinates: X(), Y() and Z() read back int32 values. */
  lemma CoordinatesView(s: Snapshot, x: Int, y: Int, z: Int)
    requires InInt32(x) && InInt32(y) && InInt32(z)
    ensures ViewOf(SetCoordinates(s, x, y, z)) == ViewOf(s).(x := x, y := y, z := z)
  {
    Int32RoundTrip(x);
    Int32RoundTrip(y);
    Int32RoundTrip(z);
  }

  /** WithGold: Gold() reads back an int32 value. */
  lemma GoldView(s: Snapshot, g: Int)
    requires InInt32(g)
    ensures ViewOf(SetGold(s, g)) == ViewOf(s).(gold := g)
  {
    Int32RoundTrip(g);
  }

  /** WithMana: Mana() reads back a ten-bit value when its bits of byte 1 were clear. */
  lemma ManaView(s: Snapshot, m: Int)
    requires m < 1024 && s.mh1 & ManaMaskLowBits == 0
    ensures ViewOf(SetMana(s, m)) == ViewOf(s).(mana := m)
  {
    ManaReadsBack(s.mh1, m);
    ManaKeepsHealth(s.mh1, s.mh2, m);
    TenBits(m);
  }

  /** WithHealth: Health() reads back a ten-bit value when its bits of byte 1 were clear. */
  lemma HealthView(s: Snapshot, h: Int)
    requires h < 1024 && s.mh1 & (HealthMaskTopBits as bv8) == 0
    ensures ViewOf(SetHealth(s, h)) == ViewOf(s).(health := h)
  {
    HealthReadsBack(s.mh1, h);
    HealthKeepsMana(s.mh0, s.mh1, h);
    TenBits(h);
  }

  /** WithRespect: Respect() reads back a four-bit value. */
  lemma RespectView(s: Snapshot, r: Int)
    requires r < 16
    ensures ViewOf(SetAttributes(s, PutRespect(s.attributes, ToUint16(r)))) == ViewOf(s).(respect := r)
  {
    PutRespectSpec(s.attributes, r);
    Uint16OfNibble(r);
  }

  /** WithStrength: Strength() reads back a four-bit value. */
  lemma StrengthView(s: Snapshot, r: Int)
    requires r < 16
    ensures ViewOf(SetAttributes(s, PutStrength(s.attributes, ToUint16(r)))) == ViewOf(s).(strength := r)
  {
    PutStrengthSpec(s.attributes, r);
    Uint16OfNibble(r);
  }

  /** WithExperience: Experience() reads back a four-bit value. */
  lemma ExperienceView(s: Snapshot, r: Int)
    requires r < 16
    ensures ViewOf(SetAttributes(s, PutExperience(s.attributes, ToUint16(r)))) == ViewOf(s).(experience := r)
  {
    PutExperienceSpec(s.attributes, r);
    Uint16OfNibble(r);
  }

  /** WithLevel: Level() reads back a four-bit value. */
  lemma LevelView(s: Snapshot, r: Int)
    requires r < 16
    ensures ViewOf(SetAttributes(s, PutLevel(s.attributes, ToUint16(r)))) == ViewOf(s).(level := r)
  {
    PutLevelSpec(s.attributes, r);
    Uint16OfNibble(r);
  }

  /** Setting a flag bit changes only the accessors that read flags. */
  lemma FlagView(s: Snapshot, flag: bv8)
    requires flag in {HasHouseFlag, HasWeaponFlag, HasFamilyFlag}
    ensures ViewOf(SetFlags(s, AddFlag(s.flags, flag)))
            == ViewOf(s).(house := HasFlag(AddFlag(s.flags, flag), HasHouseFlag),
                          gun := HasFlag(AddFlag(s.flags, flag), HasWeaponFlag),
                          family := HasFlag(AddFlag(s.flags, flag), HasFamilyFlag))
  {
    AddFlagKeepsType(s.flags, flag);
    ViewOfFlags(s, AddFlag(s.flags, flag));
  }

  /** WithHouse: HasHouse() becomes true, every other accessor is unchanged. */
  lemma HouseView(s: Snapshot)
    ensures ViewOf(SetFlags(s, AddFlag(s.flags, HasHouseFlag))) == ViewOf(s).(house := true)
  {
    FlagView(s, HasHouseFlag);
    AddFlagIndependent(s.flags, HasHouseFlag, HasWeaponFlag);
    AddFlagIndependent(s.flags, HasHouseFlag, HasFamilyFlag);
  }

  /** WithGun: HasGun() becomes true, every other accessor is unchanged. */
  lemma GunView(s: Snapshot)
    ensures ViewOf(SetFlags(s, AddFlag(s.flags, HasWeaponFlag))) == ViewOf(s).(gun := true)
  {
    FlagView(s, HasWeaponFlag);
    AddFlagIndependent(s.flags, HasWeaponFlag, HasHouseFlag);
    AddFlagIndependent(s.flags, HasWeaponFlag, HasFamilyFlag);
  }

  /** WithFamily: HasFamilty() becomes true, every other accessor is unchanged. */
  lemma FamilyView(s: Snapshot)
    ensures ViewOf(SetFlags(s, AddFlag(s.flags, HasFamilyFlag))) == ViewOf(s).(family := true)
  {
    FlagView(s, HasFamilyFlag);
    AddFlagIndependent(s.flags, HasFamilyFlag, HasHouseFlag);
    AddFlagIndependent(s.flags, HasFamilyFlag, HasWeaponFlag);
  }

  /** WithType: Type() reads back a known type when no type bit was set. */
  lemma TypeView(s: Snapshot, t: Int)
    requires t in {BuilderGamePersonType, BlacksmithGamePersonType, WarriorGamePersonType}
    requires s.flags & TypeFlags == 0
    ensures ViewOf(SetFlags(s, PutType(s.flags, t))) == ViewOf(s).(personType := t)
  {
    TypeRoundTrip(s.flags, t);
    PutTypeKeepsFlags(s.flags, t);
  }

  lemma StepViewRecord(s: Snapshot, o: Option)
    requires o.WithName? || o.WithCoordinates? || o.WithGold?
    requires Sound(s, o)
    ensures ViewOf(Step(s, o)) == Expected(ViewOf(s), o)
  {
    match o
    case WithName(n) => NameView(s, n);
    case WithCoordinates(x, y, z) => CoordinatesView(s, x, y, z);
    case WithGold(g) => GoldView(s, g);
  }

  lemma StepViewManaHealth(s: Snapshot, o: Option)
    requires o.WithMana? || o.WithHealth?
    requires Sound(s, o)
    ensures ViewOf(Step(s, o)) == Expected(ViewOf(s), o)
  {
    match o
    case WithMana(m) => ManaView(s, m);
    case WithHealth(h) => HealthView(s, h);
  }

  lemma StepViewLowAttributes(s: Snapshot, o: Option)
    requires o.WithRespect? || o.WithStrength?
    requires Sound(s, o)
    ensures ViewOf(Step(s, o)) == Expected(ViewOf(s), o)
  {
    match o
    case WithRespect(r) => RespectView(s, r);
    case WithStrength(r) => StrengthView(s, r);
  }

  lemma StepViewHighAttributes(s: Snapshot, o: Option)
    requires o.WithExperience? || o.WithLevel?
    requires Sound(s, o)
    ensures ViewOf(Step(s, o)) == Expected(ViewOf(s), o)
  {
    match o
    case WithExperience(r) => ExperienceView(s, r);
    case WithLevel(r) => LevelView(s, r);
  }

  lemma StepViewFlags(s: Snapshot, o: Option)
    requires o.WithHouse? || o.WithGun? || o.WithFamily? || o.WithType?
    requires Sound(s, o)
    ensures ViewOf(Step(s, o)) == Expected(ViewOf(s), o)
  {
    match o
    case WithHouse => HouseView(s);
    case WithGun => GunView(s);
    case WithFamily => FamilyView(s);
    case WithType(t) => TypeView(s, t);
  }

  /** Every option, applied where it is sound, makes the accessors read
      exactly what Expected says: its own value, and nothing else changed. */
  lemma StepView(s: Snapshot, o: Option)
    requires Sound(s, o)
    ensures ViewOf(Step(s, o)) == Expected(ViewOf(s), o)
  {
    if o.WithName? || o.WithCoordinates? || o.WithGold? {
      StepViewRecord(s, o);
    } else if o.WithMana? || o.WithHealth? {
      StepViewManaHealth(s, o);
    } else if o.WithRespect? || o.WithStrength? {
      StepViewLowAttributes(s, o);
    } else if o.WithExperience? || o.WithLevel? {
      StepViewHighAttributes(s, o);
    } else {
      StepViewFlags(s, o);
    }
  }

  /** Each option of the list is sound at the point where it is applied. */
  predicate SoundRun(s: Snapshot, options: seq<Option>)
    decreases |options|
  {
    options == [] || (Sound(s, options[0]) && SoundRun(Step(s, options[0]), options[1..]))
  }

  /** What the accessors read after the options, by Expected applied in turn. */
  function ExpectedRun(v: View, options: seq<Option>): View
    decreases |options|
  {
    if options == [] then v else ExpectedRun(Expected(v, options[0]), options[1..])
  }

  /** A list of options that are each sound where applied makes the accessors
      read what the options promise, later options winning. */
  lemma {:induction false} RunView(s: Snapshot, options: seq<Option>)
    requires SoundRun(s, options)
    ensures ViewOf(Run(s, options)) == ExpectedRun(ViewOf(s), options)
    decreases |options|
  {
    if options != [] {
      StepView(s, options[0]);
      RunView(Step(s, options[0]), options[1..]);
    }
  }

  /** Two options that OR into the same bits: two WithMana, two WithHealth or two WithType. */
  predicate Repeats(o: Option, p: Option) {
    (o.WithMana? && p.WithMana?) || (o.WithHealth? && p.WithHealth?) || (o.WithType? && p.WithType?)
  }

  // Each option keeps the bits of the other ones clear.

  lemma StepKeepsByte1(s: Snapshot, o: Option)
    ensures !o.WithMana? && !o.WithHealth? ==> Step(s, o).mh1 == s.mh1
  {
  }

  lemma HealthKeepsManaBits(s: Snapshot, o: Option)
    ensures o.WithHealth? && o.health < 1024 && s.mh1 & ManaMaskLowBits == 0 ==>
              Step(s, o).mh1 & ManaMaskLowBits == 0
  {
    if o.WithHealth? && o.health < 1024 {
      HealthKeepsMana(s.mh0, s.mh1, o.health);
    }
  }

  lemma ManaKeepsHealthBits(s: Snapshot, o: Option)
    ensures o.WithMana? && s.mh1 & (HealthMaskTopBits as bv8) == 0 ==>
              Step(s, o).mh1 & (HealthMaskTopBits as bv8) == 0
  {
    if o.WithMana? {
      ManaKeepsHealth(s.mh1, s.mh2, o.mana);
    }
  }

  /** Only WithMana sets mana bits of byte 1 (WithHealth only for a value
      over 1023). */
  lemma StepKeepsManaBits(s: Snapshot, o: Option)
    requires Lossless(o) && !o.WithMana?
    ensures s.mh1 & ManaMaskLowBits == 0 ==> Step(s, o).mh1 & ManaMaskLowBits == 0
  {
    HealthKeepsManaBits(s, o);
    StepKeepsByte1(s, o);
  }

  /** Only WithHealth sets health bits of byte 1. */
  lemma StepKeepsHealthBits(s: Snapshot, o: Option)
    requires !o.WithHealth?
    ensures s.mh1 & (HealthMaskTopBits as bv8) == 0 ==> Step(s, o).mh1 & (HealthMaskTopBits as bv8) == 0
  {
    ManaKeepsHealthBits(s, o);
    StepKeepsByte1(s, o);
  }

  lemma StepKeepsFlags(s: Snapshot, o: Option)
    ensures !o.WithHouse? && !o.WithGun? && !o.WithFamily? && !o.WithType? ==> Step(s, o).flags == s.flags
  {
  }

  lemma FlagKeepsTypeBitsStep(s: Snapshot, o: Option)
    ensures o.WithHouse? || o.WithGun? || o.WithFamily? ==>
              Step(s, o).flags & TypeFlags == s.flags & TypeFlags
  {
    if o.WithHouse? || o.WithGun? || o.WithFamily? {
      var flag := if o.WithHouse? then HasHouseFlag else if o.WithGun? then HasWeaponFlag else HasFamilyFlag;
      FlagKeepsTypeBits(s.flags, flag);
    }
  }

  /** Only WithType sets type bits. */
  lemma StepKeepsTypeBits(s: Snapshot, o: Option)
    requires !o.WithType?
    ensures s.flags & TypeFlags == 0 ==> Step(s, o).flags & TypeFlags == 0
  {
    FlagKeepsTypeBitsStep(s, o);
    StepKeepsFlags(s, o);
  }

  /** An option keeps another one ready unless they OR into the same bits. */
  lemma StepKeepsReady(s: Snapshot, o: Option, p: Option)
    requires Lossless(o) && !Repeats(o, p)
    ensures Ready(s, p) ==> Ready(Step(s, o), p)
  {
    if p.WithMana? {
      StepKeepsManaBits(s, o);
    } else if p.WithHealth? {
      StepKeepsHealthBits(s, o);
    } else if p.WithType? {
      StepKeepsTypeBits(s, o);
    }
  }

  /** Options with lossless values, none of WithMana, WithHealth and WithType
      given twice, and every shared bit still clear, are each sound where applied. */
  lemma {:induction false} SoundOnce(s: Snapshot, options: seq<Option>)
    requires forall i :: 0 <= i < |options| ==> Lossless(options[i]) && Ready(s, options[i])
    requires forall i, j :: 0 <= i < j < |options| ==> !Repeats(options[i], options[j])
    ensures SoundRun(s, options)
    decreases |options|
  {
    if options != [] {
      var rest := options[1..];
      forall k | 0 <= k < |rest|
        ensures Lossless(rest[k]) && Ready(Step(s, options[0]), rest[k])
      {
        StepKeepsReady(s, options[0], options[k + 1]);
      }
      SoundOnce(Step(s, options[0]), rest);
    }
  }

  /** NewGamePerson's promise: options with lossless values, where WithMana,
      WithHealth and WithType appear at most once each, make every accessor
      read what the options set (the later of two settings of one field),
      and every accessor no option sets reads the zero record's value. */
  lemma ReadsBack(options: seq<Option>)
    requires forall i :: 0 <= i < |options| ==> Lossless(options[i])
    requires forall i, j :: 0 <= i < j < |options| ==> !Repeats(options[i], options[j])
    ensures ViewOf(Run(Zero, options)) == ExpectedRun(ViewOf(Zero), options)
  {
    SoundOnce(Zero, options);
    RunView(Zero, options);
  }

  /** What every accessor of the zero record reads. */
  lemma ZeroView()
    ensures ViewOf(Zero) == View([], 0, 0, 0, 0, 0, 0, 0, 0, 0, 0, false, false, false, BuilderGamePersonType)
  {
    assert Zero.name[0] == 0;
  }

  // ---------------------------------------------------------------------
  // The scenario of TestGamePerson.

  /** "aaaaaaaaaaaaa_bbbbbbbbbbbbb_cccccccccccccc", 42 bytes. */
  const TestName: seq<bv8> := seq(13, _ => 0x61) + [0x5F] + seq(13, _ => 0x62) + [0x5F] + seq(14, _ => 0x63)

  /** The options the test passes to NewGamePerson, in its order. */
  const TestOptions: seq<Option> := [
    WithName(TestName), WithCoordinates(MinInt32, MaxInt32, 0), WithGold(MaxInt32),
    WithMana(1000), WithHealth(1000),
    WithRespect(10), WithStrength(10), WithExperience(10), WithLevel(10),
    WithHouse, WithFamily, WithType(BuilderGamePersonType)]

  /** TestGamePerson: every accessor reads back the value set, HasHouse and
      HasFamilty are true and HasGun stays false. */
  lemma TestGamePerson()
    ensures ViewOf(Run(Zero, TestOptions))
            == View(TestName, MinInt32, MaxInt32, 0, MaxInt32, 1000, 1000, 10, 10, 10, 10,
                    true, false, true, BuilderGamePersonType)
  {
    TestOptionsLossless();
    TestOptionsOnce();
    ReadsBack(TestOptions);
    TestExpected();
  }

  lemma TestOptionsLossless()
    ensures forall i :: 0 <= i < |TestOptions| ==> Lossless(TestOptions[i])
  {
    assert forall i :: 0 <= i < |TestName| ==> TestName[i] != 0;
  }

  lemma TestOptionsOnce()
    ensures forall i, j :: 0 <= i < j < |TestOptions| ==> !Repeats(TestOptions[i], TestOptions[j])
  {
  }

  lemma TestSuffix11(v: View)
    ensures ExpectedRun(v, TestOptions[11..]) == v.(personType := BuilderGamePersonType)
  {
    assert TestOptions[11] == WithType(BuilderGamePersonType);
    assert TestOptions[11..][1..] == [];
  }

  lemma TestSuffix10(v: View)
    ensures ExpectedRun(v, TestOptions[10..]) == v.(family := true, personType := BuilderGamePersonType)
  {
    assert TestOptions[10] == WithFamily;
    assert TestOptions[10..][1..] == TestOptions[11..];
    TestSuffix11(v.(family := true));
  }

  lemma TestSuffix9(v: View)
    ensures ExpectedRun(v, TestOptions[9..]) == v.(house := true, family := true, personType := BuilderGamePersonType)
  {
    assert TestOptions[9] == WithHouse;
    assert TestOptions[9..][1..] == TestOptions[10..];
    TestSuffix10(v.(house := true));
  }

  lemma TestSuffix8(v: View)
    ensures ExpectedRun(v, TestOptions[8..]) == v.(level := 10, house := true, family := true, personType := BuilderGamePersonType)
  {
    assert TestOptions[8] == WithLevel(10);
    assert TestOptions[8..][1..] == TestOptions[9..];
    TestSuffix9(v.(level := 10));
  }

  lemma TestSuffix7(v: View)
    ensures ExpectedRun(v, TestOptions[7..]) == v.(experience := 10, level := 10, house := true, family := true, personType := BuilderGamePersonType)
  {
    assert TestOptions[7] == WithExperience(10);
    assert TestOptions[7..][1..] == TestOptions[8..];
    TestSuffix8(v.(experience := 10));
  }

  lemma TestSuffix6(v: View)
    ensures ExpectedRun(v, TestOptions[6..]) == v.(strength := 10, experience := 10, level := 10, house := true, family := true, personType := BuilderGamePersonType)
  {
    assert TestOptions[6] == WithStrength(10);
    assert TestOptions[6..][1..] == TestOptions[7..];
    TestSuffix7(v.(strength := 10));
  }

  lemma TestSuffix5(v: View)
    ensures ExpectedRun(v, TestOptions[5..]) == v.(respect := 10, strength := 10, experience := 10, level := 10, house := true, family := true, personType := BuilderGamePersonType)
  {
    assert TestOptions[5] == WithRespect(10);
    assert TestOptions[5..][1..] == TestOptions[6..];
    TestSuffix6(v.(respect := 10));
  }

  lemma TestSuffix4(v: View)
    ensures ExpectedRun(v, TestOptions[4..]) == v.(health := 1000, respect := 10, strength := 10, experience := 10, level := 10, house := true, family := true, personType := BuilderGamePersonType)
  {
    assert TestOptions[4] == WithHealth(1000);
    assert TestOptions[4..][1..] == TestOptions[5..];
    TestSuffix5(v.(health := 1000));
  }

  lemma TestSuffix3(v: View)
    ensures ExpectedRun(v, TestOptions[3..]) == v.(mana := 1000, health := 1000, respect := 10, strength := 10, experience := 10, level := 10, house := true, family := true, personType := BuilderGamePersonType)
  {
    assert TestOptions[3] == WithMana(1000);
    assert TestOptions[3..][1..] == TestOptions[4..];
    TestSuffix4(v.(mana := 1000));
  }

  lemma TestSuffix2(v: View)
    ensures ExpectedRun(v, TestOptions[2..]) == v.(gold := MaxInt32, mana := 1000, health := 1000, respect := 10, strength := 10, experience := 10, level := 10, house := true, family := true, personType := BuilderGamePersonType)
  {
    assert TestOptions[2] == WithGold(MaxInt32);
    assert TestOptions[2..][1..] == TestOptions[3..];
    TestSuffix3(v.(gold := MaxInt32));
  }

  lemma TestSuffix1(v: View)
    ensures ExpectedRun(v, TestOptions[1..]) == v.(x := MinInt32, y := MaxInt32, z := 0, gold := MaxInt32, mana := 1000, health := 1000, respect := 10, strength := 10, experience := 10, level := 10, house := true, family := true, personType := BuilderGamePersonType)
  {
    assert TestOptions[1] == WithCoordinates(MinInt32, MaxInt32, 0);
    assert TestOptions[1..][1..] == TestOptions[2..];
    TestSuffix2(v.(x := MinInt32, y := MaxInt32, z := 0));
  }

  lemma TestSuffix0(v: View)
    ensures ExpectedRun(v, TestOptions[0..]) == v.(name := TestName, x := MinInt32, y := MaxInt32, z := 0, gold := MaxInt32, mana := 1000, health := 1000, respect := 10, strength := 10, experience := 10, level := 10, house := true, family := true, personType := BuilderGamePersonType)
  {
    assert TestOptions[0] == WithName(TestName);
    assert |TestName| == NameLength;
    assert TestOptions[0..][1..] == TestOptions[1..];
    TestSuffix1(v.(name := TestName));
  }

  lemma TestExpected()
    ensures ExpectedRun(ViewOf(Zero), TestOptions)
            == View(TestName, MinInt32, MaxInt32, 0, MaxInt32, 1000, 1000, 10, 10, 10, 10,
                    true, false, true, BuilderGamePersonType)
  {
    ZeroView();
    TestSuffix0(ViewOf(Zero));
    assert TestOptions[0..] == TestOptions;
  }

  // ---------------------------------------------------------------------
  // The record.

  class GamePerson {
    var x: bv32
    var y: bv32
    var z: bv32
    var gold: bv32
    var attributes: bv16
    var flags: bv8
    var manahealth: seq<bv8>
    var name: seq<bv8>

    /** The fixed sizes of the two byte arrays. */
    ghost predicate Valid()
      reads this
    {
      |manahealth| == ManaHealthLength && |name| == NameLength
    }

    ghost function State(): Snapshot
      reads this
      requires Valid()
    {
      Snapshot(x, y, z, gold, attributes, flags, manahealth[0], manahealth[1], manahealth[2], name)
    }

    /** GamePerson{}: every field zero. */
    constructor ()
      ensures Valid() && State() == Zero
    {
      x, y, z, gold := 0, 0, 0, 0;
      attributes, flags := 0, 0;
      manahealth := seq(ManaHealthLength, _ => 0);
      name := seq(NameLength, _ => 0);
    }

    /** Calls one option closure on this record. */
    method Apply(o: Option)
      requires Valid()
      modifies this
      ensures Valid()
      ensures State() == Step(old(State()), o)
    {
      match o
      case WithName(n) => ApplyName(n);
      case WithCoordinates(cx, cy, cz) => ApplyCoordinates(cx, cy, cz);
      case WithGold(g) => ApplyGold(g);
      case WithMana(m) => ApplyMana(m);
      case WithHealth(h) => ApplyHealth(h);
      case WithRespect(v) => ApplyRespect(v);
      case WithStrength(v) => ApplyStrength(v);
      case WithExperience(v) => ApplyExperience(v);
      case WithLevel(v) => ApplyLevel(v);
      case WithHouse => ApplyFlag(o, HasHouseFlag);
      case WithGun => ApplyFlag(o, HasWeaponFlag);
      case WithFamily => ApplyFlag(o, HasFamilyFlag);
      case WithType(t) => ApplyType(t);
    }

    // The closure bodies, one method each.

    method ApplyName(n: seq<bv8>)
      requires Valid()
      modifies this
      ensures Valid() && State() == Step(old(State()), WithName(n))
    {
      name := PutName(n);
    }

    method ApplyCoordinates(cx: Int, cy: Int, cz: Int)
      requires Valid()
      modifies this
      ensures Valid() && State() == Step(old(State()), WithCoordinates(cx, cy, cz))
    {
      x := ToInt32(cx);
      y := ToInt32(cy);
      z := ToInt32(cz);
    }

    method ApplyGold(g: Int)
      requires Valid()
      modifies this
      ensures Valid() && State() == Step(old(State()), WithGold(g))
    {
      gold := ToInt32(g);
    }

    method ApplyMana(m: Int)
      requires Valid()
      modifies this
      ensures Valid() && State() == Step(old(State()), WithMana(m))
    {
      manahealth := [ManaTopByte(m), manahealth[1] | ManaLowBits(m), manahealth[2]];
    }

    method ApplyHealth(h: Int)
      requires Valid()
      modifies this
      ensures Valid() && State() == Step(old(State()), WithHealth(h))
    {
      manahealth := [manahealth[0], manahealth[1] | HealthTopBits(h), HealthLowByte(h)];
    }

    method ApplyRespect(v: Int)
      requires Valid()
      modifies this
      ensures Valid() && State() == Step(old(State()), WithRespect(v))
    {
      attributes := PutRespect(attributes, ToUint16(v));
    }

    method ApplyStrength(v: Int)
      requires Valid()
      modifies this
      ensures Valid() && State() == Step(old(State()), WithStrength(v))
    {
      attributes := PutStrength(attributes, ToUint16(v));
    }

    method ApplyExperience(v: Int)
      requires Valid()
      modifies this
      ensures Valid() && State() == Step(old(State()), WithExperience(v))
    {
      attributes := PutExperience(attributes, ToUint16(v));
    }

    method ApplyLevel(v: Int)
      requires Valid()
      modifies this
      ensures Valid() && State() == Step(old(State()), WithLevel(v))
    {
      attributes := PutLevel(attributes, ToUint16(v));
    }

    /** WithHouse, WithGun and WithFamily: `flags |= flag`. */
    method ApplyFlag(o: Option, flag: bv8)
      requires Valid()
      requires (o == WithHouse && flag == HasHouseFlag) || (o == WithGun && flag == HasWeaponFlag)
               || (o == WithFamily && flag == HasFamilyFlag)
      modifies this
      ensures Valid() && State() == Step(old(State()), o)
    {
      flags := AddFlag(flags, flag);
    }

    method ApplyType(t: Int)
      requires Valid()
      modifies this
      ensures Valid() && State() == Step(old(State()), WithType(t))
    {
      flags := PutType(flags, t);
    }

    /** The name bytes before the first zero byte, or all of them. */
    method Name() returns (s: seq<bv8>)
      ensures s == UntilZero(name)
    {
      if |name| == 0 {
        return [];
      }
      var end := |name|;
      var index := 0;
      while index < |name|
        invariant 0 <= index <= |name|
        invariant end == |name|
        invariant forall i :: 0 <= i < index ==> name[i] != 0
      {
        if name[index] == 0 {
          end := index;
          break;
        }
        index := index + 1;
      }
      UntilZeroUnique(name, end);
      s := name[..end];
    }

    function X(): Int
      reads this
    {
      FromInt32(x)
    }

    function Y(): Int
      reads this
    {
      FromInt32(y)
    }

    function Z(): Int
      reads this
    {
      FromInt32(z)
    }

    function Gold(): Int
      reads this
    {
      FromInt32(gold)
    }

    function Mana(): Int
      reads this
      requires Valid()
    {
      Codec.Mana(manahealth[0], manahealth[1])
    }

    function Health(): Int
      reads this
      requires Valid()
    {
      Codec.Health(manahealth[1], manahealth[2])
    }

    function Respect(): Int
      reads this
    {
      Codec.Respect(attributes)
    }

    function Strength(): Int
      reads this
    {
      Codec.Strength(attributes)
    }

    function Experience(): Int
      reads this
    {
      Codec.Experience(attributes)
    }

    function Level(): Int
      reads this
    {
      Codec.Level(attributes)
    }

    predicate HasHouse()
      reads this
    {
      HasFlag(flags, HasHouseFlag)
    }

    predicate HasGun()
      reads this
    {
      HasFlag(flags, HasWeaponFlag)
    }

    predicate HasFamilty()
      reads this
    {
      HasFlag(flags, HasFamilyFlag)
    }

    function Type(): Int
      reads this
    {
      TypeOf(flags)
    }
  }

  /** NewGamePerson: a zero record with every option applied in order. */
  method NewGamePerson(options: seq<Option>) returns (p: GamePerson)
    ensures fresh(p) && p.Valid()
    ensures p.State() == Run(Zero, options)
  {
    p := new GamePerson();
    for i := 0 to |options|
      invariant fresh(p) && p.Valid()
      invariant p.State() == Run(Zero, options[..i])
    {
      p.Apply(options[i]);
      RunSnoc(Zero, options[..i], options[i]);
      assert options[..i + 1] == options[..i] + [options[i]];
    }
    assert options[..|options|] == options;
  }

  /** TestGamePerson on the record itself: what its accessors return after
      NewGamePerson with the test's options. */
  method NewGamePersonScenario() returns (v: View)
    ensures v == View(TestName, MinInt32, MaxInt32, 0, MaxInt32, 1000, 1000, 10, 10, 10, 10,
                      true, false, true, BuilderGamePersonType)
  {
    var p := NewGamePerson(TestOptions);
    var name := p.Name();
    v := View(name, p.X(), p.Y(), p.Z(), p.Gold(), p.Mana(), p.Health(),
              p.Respect(), p.Strength(), p.Experience(), p.Level(),
              p.HasHouse(), p.HasGun(), p.HasFamilty(), p.Type());
    assert v == ViewOf(p.State());
    TestGamePerson();
  }
}
