# GamePerson and MultiError in Dafny

A model of two small Go components and proofs of what they promise.

**GamePerson** is a game character packed into 64 bytes:
- four int32 slots: `x`, `y`, `z` and `gold`;
- a 16-bit `attributes` word with four 4-bit fields: respect, strength, experience and level;
- a `flags` byte: house, weapon and family bits, plus three person-type bits;
- three `manahealth` bytes holding two 10-bit values, mana and health;
- a zero-padded 42-byte `name`.

A record is built by `NewGamePerson` from functional options (`WithName`, `WithCoordinates`, …). It starts from the zero record and calls each option closure on it in turn. Each closure does a masked read-modify-write, or ORs bits into shared storage. The accessors (`Name`, `X` … `Type`) decode with masks and shifts.

**MultiError** gathers errors into a list.
- `Error()` renders it as `"<n> errors occured:\n"`, then `"\t* <message>"` for each error, then a final `"\n"`. An empty list renders as `""`.
- `Append(err, errs...)` starts a new list from nil or a plain error. Given an existing `*MultiError`, it extends that object in place and returns it.

The modules:
- `Layout` (layout.dfy) has the machine integer types, every constant of the record, and the 64-byte budget. Go's `int` is taken on a 64-bit target, as a 64-bit two's-complement bit pattern (`bv64`). The conversions `int32(v)`, `int(v)`, `uint16(v)` and `byte(v)` and the arithmetic `>>` are written out.
- `Codec` (codec.dfy) has, for each packed field, the encoder each closure applies and the decoder each accessor applies. These are pure functions on the raw bits. Lemmas about them state:
  - the read-back of each field;
  - which neighbouring bits each setter leaves alone;
  - that quartet setters commute and overwrite;
  - that flags are idempotent;
  - the precedence of `Type()`;
  - the mana/health round trip in either order;
  - the name round trip.
- `Person` (person.dfy) has the model of the record itself:
  - `Option` is a datatype with one constructor per `With*` call.
  - `Snapshot` is the record's storage, and `Step`/`Run` describe the closures.
  - `View` is what the accessors read, and `Expected` is what each option promises about them.
  - `class GamePerson` keeps the storage in fields. Its methods update those fields in place, one per closure. Its `Name()` method is the scanning loop, and its accessors are functions.
  - `NewGamePerson` is the loop over the options.
- `MultiErrors` (multierror.dfy) has:
  - `class MultiError`: a list of errors, and an `Error()` method that builds the string in a loop;
  - `Append`, which allocates a new object or mutates the one passed in;
  - the spec function `Message`;
  - a verified decimal rendering for `%d`.

The main results:
- `Person.ReadsBack` and `Person.TestGamePerson` concern options whose values fit their fields, with `WithMana`, `WithHealth` and `WithType` each given at most once. For such options, every accessor of `NewGamePerson(options...)` reads exactly what the options set. A later setting of the same field wins. Every field no option sets reads as in the zero record.
- `Person.StepView` is the one-option version: the option's own accessor reads its value back and every other accessor is unchanged.

The name in `TestGamePerson` (homework/structs/homework_test.go:247) is exactly 42 bytes, 13 + 1 + 13 + 1 + 14, so it round-trips whole, through the branch of `Name()` that finds no zero byte.

## Model

| member | source | states |
|---|---|---|
| Layout.FromInt32InRange | homework/structs/homework_test.go:177-191 | `int(v)` of an int32 lies in the int32 range, and `int32` of it gives the int32 back |
| Layout.Int32RoundTrip | homework/structs/homework_test.go:22-34 | storing `int32(v)` and reading `int(...)` returns v exactly when v is in the int32 range, both directions |
| Layout.RecordFitsBudget | homework/structs/homework_test.go:121-130 | the declared field widths 4+4+4+4+2+1+3+42 sum to exactly 64 bytes, the budget the test checks |
| Layout.ToInt32 | homework/structs/homework_test.go:24-26 | `int32(v)`: body is the source expression, the low 32 bits; behaviour stated by Layout.Int32RoundTrip |
| Layout.FromInt32 | homework/structs/homework_test.go:178 | `int(v)` of an int32: body is the source expression, sign extension; behaviour stated by Layout.FromInt32InRange and Layout.Int32RoundTrip |
| Layout.ShiftRight | homework/structs/homework_test.go:38 | Go's arithmetic `>>` on an int: body is the source expression; behaviour stated by Codec.ManaTopByteBits and Codec.HealthTopBitsRead |
| Layout.ToUint16 | homework/structs/homework_test.go:52 | `uint16(v)`: body is the source expression, the low 16 bits; behaviour stated by Codec.PutRespectSpec |
| Layout.ToByte | homework/structs/homework_test.go:38 | `byte(v)`: body is the source expression, the low 8 bits; behaviour stated by Codec.ManaReadsBack |
| Codec.Respect | homework/structs/homework_test.go:201-203 | Respect() is always below 16 |
| Codec.Strength | homework/structs/homework_test.go:205-207 | Strength() is always below 16 |
| Codec.Experience | homework/structs/homework_test.go:209-211 | Experience() is always below 16 |
| Codec.Level | homework/structs/homework_test.go:213-215 | Level() is always below 16 |
| Codec.PutRespectSpec | homework/structs/homework_test.go:50-54 | after WithRespect(v), Respect() reads the low 4 bits of v; for v in 0..15 the rest of the word and the other three fields are unchanged |
| Codec.PutStrengthSpec | homework/structs/homework_test.go:56-60 | after WithStrength(v), Strength() reads the low 4 bits of v and Respect() is kept; for v in 0..15 no other bit changes |
| Codec.PutExperienceSpec | homework/structs/homework_test.go:62-66 | after WithExperience(v), Experience() reads the low 4 bits of v and the two lower fields are kept; for v in 0..15 no other bit changes |
| Codec.PutLevelSpec | homework/structs/homework_test.go:68-72 | after WithLevel(v), Level() reads the low 4 bits of v and no other bit of the word changes, for any v |
| Codec.QuartetSettersOverwrite | homework/structs/homework_test.go:50-72 | re-applying a quartet setter gives the same word as applying only the second one |
| Codec.QuartetSettersCommute | homework/structs/homework_test.go:50-72 | for values in 0..15, any two different quartet setters commute, so any order of the four gives the same word |
| Codec.PutRespect | homework/structs/homework_test.go:52 | WithRespect's update of the word: body is the source expression; behaviour stated by Codec.PutRespectSpec |
| Codec.PutStrength | homework/structs/homework_test.go:58 | WithStrength's update of the word: body is the source expression; behaviour stated by Codec.PutStrengthSpec |
| Codec.PutExperience | homework/structs/homework_test.go:64 | WithExperience's update of the word: body is the source expression; behaviour stated by Codec.PutExperienceSpec |
| Codec.PutLevel | homework/structs/homework_test.go:70 | WithLevel's update of the word: body is the source expression; behaviour stated by Codec.PutLevelSpec |
| Codec.HasFlag | homework/structs/homework_test.go:217-227 | HasHouse, HasGun and HasFamilty: body is the source expression `flags&flag != 0`; behaviour stated by Codec.AddFlagIndependent |
| Codec.PutType | homework/structs/homework_test.go:92-104 | WithType's three `if`s: body is the source code; behaviour stated by Codec.PutTypeAddsTypeFlag and Codec.PutTypeReadsBack |
| Codec.ManaTopByte | homework/structs/homework_test.go:38 | `byte(mana >> 2)`: body is the source expression; behaviour stated by Codec.ManaReadsBack |
| Codec.ManaLowBits | homework/structs/homework_test.go:39 | `byte((mana << 6) & 0xC0)`: body is the source expression; behaviour stated by Codec.ManaReadsBack and Codec.ManaKeepsHealth |
| Codec.HealthTopBits | homework/structs/homework_test.go:45 | `byte(health >> 8)`: body is the source expression; behaviour stated by Codec.HealthReadsBack and Codec.HealthKeepsMana |
| Codec.HealthLowByte | homework/structs/homework_test.go:46 | `byte(health & 0xFF)`: body is the source expression; behaviour stated by Codec.HealthReadsBack |
| Codec.AddFlag | homework/structs/homework_test.go:74-90 | `flags \|= flag` sets the flag's bits and leaves every other bit as it was |
| Codec.AddFlagIdempotent | homework/structs/homework_test.go:74-90 | setting a flag twice equals setting it once |
| Codec.AddFlagIndependent | homework/structs/homework_test.go:217-227 | after WithHouse, WithGun or WithFamily the matching Has* accessor is true, and every other flag and type bit reads as before |
| Codec.TypeFlag | homework/structs/homework_test.go:92-104 | the bit for a person type is a type bit, and there is none exactly when the type is not Builder, Blacksmith or Warrior |
| Codec.TypeOf | homework/structs/homework_test.go:229-241 | Type() returns one of the three types; Blacksmith exactly when its bit is set; Warrior exactly when only the warrior bit among those checked is set; no type bit reads as 0, the Builder type |
| Codec.PutTypeAddsTypeFlag | homework/structs/homework_test.go:92-104 | WithType(t) ORs exactly the matching type bit: an unknown t leaves the flags unchanged and no non-type bit ever changes |
| Codec.PutTypeReadsBack | homework/structs/homework_test.go:229-241 | what Type() reads after WithType(t): Blacksmith always wins, Builder unless Blacksmith was set, Warrior only over a byte without the other two bits |
| Codec.AddFlagKeepsType | homework/structs/homework_test.go:74-90 | setting house, weapon or family leaves Type() unchanged |
| Codec.FlagKeepsTypeBits | homework/structs/homework_test.go:74-90 | setting house, weapon or family leaves the three type bits unchanged |
| Codec.PutTypeKeepsFlags | homework/structs/homework_test.go:92-104 | WithType leaves HasHouse, HasGun and HasFamilty unchanged |
| Codec.TypeRoundTrip | homework/structs/homework_test.go:92-104 | on flags with no type bit, WithType(t) of a known type makes Type() return t |
| Codec.Mana | homework/structs/homework_test.go:193-195 | Mana() is always below 1024 |
| Codec.Health | homework/structs/homework_test.go:197-199 | Health() is always below 1024 |
| Codec.ManaReadsBack | homework/structs/homework_test.go:36-41 | if the mana bits of byte 1 were clear, Mana() reads the low ten bits of the value after WithMana, negative values included |
| Codec.ManaKeepsHealth | homework/structs/homework_test.go:36-41 | WithMana ORs only into bits 6-7 of byte 1, so Health() and the other bits of byte 1 are unchanged |
| Codec.HealthReadsBack | homework/structs/homework_test.go:43-48 | if the health bits of byte 1 were clear, Health() reads the low ten bits of the value after WithHealth |
| Codec.HealthKeepsMana | homework/structs/homework_test.go:43-48 | for health in 0..1023, WithHealth ORs only into bits 0-1 of byte 1, so Mana() and the other bits are unchanged |
| Codec.ReservedBitsUntouched | homework/structs/homework_test.go:142-148 | neither stat ORs anything into bits 2-5 of byte 1 (health in 0..1023) |
| Codec.ManaThenHealth | homework/structs/homework_test.go:36-48 | WithMana then WithHealth on a zero region reads back both values and keeps bits 2-5 zero |
| Codec.HealthThenMana | homework/structs/homework_test.go:36-48 | WithHealth then WithMana on a zero region reads back both values and keeps bits 2-5 zero |
| Codec.ManaHealthRoundTrip | homework/structs/homework_test.go:36-48 | for 0 <= m, h <= 1023, both orders give Mana() == m and Health() == h, with bits 2-5 zero |
| Codec.PutName | homework/structs/homework_test.go:13-19 | WithName stores 42 bytes: the name's first min(len, 42) bytes, then zeros |
| Codec.UntilZero | homework/structs/homework_test.go:161-175 | the bytes Name() returns: a zero-free prefix of the buffer that stops at the first zero byte or at the end |
| Codec.UntilZeroUnique | homework/structs/homework_test.go:166-172 | any zero-free prefix that stops at a zero byte or the end is the one Name() returns |
| Codec.NameRoundTrip | homework/structs/homework_test.go:13-19 | a name with no zero byte among its first 42 reads back whole if it fits in 42 bytes, otherwise as its first 42 bytes |
| Person.RunSnoc | homework/structs/homework_test.go:154-156 | applying one more option after a list is the same as running the longer list |
| Person.Step | homework/structs/homework_test.go:13-104 | one option closure on the storage: body dispatches to the source's closures; behaviour stated by Person.StepView and Person.StepFrame |
| Person.Run | homework/structs/homework_test.go:154-156 | the options applied in list order: body is the source loop as a fold; behaviour stated by Person.RunView, Person.RunSnoc and Person.RunUntouched |
| Person.ViewOf | homework/structs/homework_test.go:161-241 | what every accessor reads from the storage: body applies the accessors' decoders; behaviour stated by the Person.ViewOf* lemmas |
| Person.GamePerson.X | homework/structs/homework_test.go:177-179 | the accessor X(): body is the source expression; behaviour stated by Person.CoordinatesView, with Person.NewGamePersonScenario reading it on the record |
| Person.GamePerson.Y | homework/structs/homework_test.go:181-183 | the accessor Y(): body is the source expression; behaviour stated by Person.CoordinatesView, with Person.NewGamePersonScenario reading it on the record |
| Person.GamePerson.Z | homework/structs/homework_test.go:185-187 | the accessor Z(): body is the source expression; behaviour stated by Person.CoordinatesView, with Person.NewGamePersonScenario reading it on the record |
| Person.GamePerson.Gold | homework/structs/homework_test.go:189-191 | the accessor Gold(): body is the source expression; behaviour stated by Person.GoldView, with Person.NewGamePersonScenario reading it on the record |
| Person.GamePerson.Mana | homework/structs/homework_test.go:193-195 | the accessor Mana(): body is the source expression; behaviour stated by Codec.Mana and Person.ManaView, with Person.NewGamePersonScenario reading it on the record |
| Person.GamePerson.Health | homework/structs/homework_test.go:197-199 | the accessor Health(): body is the source expression; behaviour stated by Codec.Health and Person.HealthView, with Person.NewGamePersonScenario reading it on the record |
| Person.GamePerson.Respect | homework/structs/homework_test.go:201-203 | the accessor Respect(): body is the source expression; behaviour stated by Codec.Respect and Person.RespectView, with Person.NewGamePersonScenario reading it on the record |
| Person.GamePerson.Strength | homework/structs/homework_test.go:205-207 | the accessor Strength(): body is the source expression; behaviour stated by Codec.Strength and Person.StrengthView, with Person.NewGamePersonScenario reading it on the record |
| Person.GamePerson.Experience | homework/structs/homework_test.go:209-211 | the accessor Experience(): body is the source expression; behaviour stated by Codec.Experience and Person.ExperienceView, with Person.NewGamePersonScenario reading it on the record |
| Person.GamePerson.Level | homework/structs/homework_test.go:213-215 | the accessor Level(): body is the source expression; behaviour stated by Codec.Level and Person.LevelView, with Person.NewGamePersonScenario reading it on the record |
| Person.GamePerson.HasHouse | homework/structs/homework_test.go:217-219 | the accessor HasHouse(): body is the source expression; behaviour stated by Person.HouseView, with Person.NewGamePersonScenario reading it on the record |
| Person.GamePerson.HasGun | homework/structs/homework_test.go:221-223 | the accessor HasGun(): body is the source expression; behaviour stated by Person.GunView, with Person.NewGamePersonScenario reading it on the record |
| Person.GamePerson.HasFamilty | homework/structs/homework_test.go:225-227 | the accessor HasFamilty(): body is the source expression; behaviour stated by Person.FamilyView, with Person.NewGamePersonScenario reading it on the record |
| Person.GamePerson.Type | homework/structs/homework_test.go:229-241 | the accessor Type(): body is the source expression; behaviour stated by Codec.TypeOf and Person.TypeView, with Person.NewGamePersonScenario reading it on the record |
| Person.StepFrame | homework/structs/homework_test.go:13-104 | each option closure leaves every storage field outside the ones it assigns unchanged |
| Person.RunUntouched | homework/structs/homework_test.go:151-159 | a field that no option in the list writes keeps its initial value |
| Person.ViewOfName | homework/structs/homework_test.go:161-175 | replacing the name buffer changes only what Name() reads |
| Person.ViewOfCoordinates | homework/structs/homework_test.go:177-187 | replacing x, y, z changes only X(), Y(), Z() |
| Person.ViewOfGold | homework/structs/homework_test.go:189-191 | replacing gold changes only Gold() |
| Person.ViewOfManaHealth | homework/structs/homework_test.go:193-199 | replacing the three bytes changes only Mana() and Health() |
| Person.ViewOfAttributes | homework/structs/homework_test.go:201-215 | replacing the attributes word changes only the four quartet accessors |
| Person.ViewOfFlags | homework/structs/homework_test.go:217-241 | replacing the flags byte changes only the Has* accessors and Type() |
| Person.NameView | homework/structs/homework_test.go:13-19 | WithName of a name with no zero byte among its first 42 makes Name() return it, or its first 42 bytes, and changes no other accessor |
| Person.CoordinatesView | homework/structs/homework_test.go:22-28 | WithCoordinates of int32 values makes X(), Y() and Z() return them and changes nothing else |
| Person.GoldView | homework/structs/homework_test.go:30-34 | WithGold of an int32 value makes Gold() return it and changes nothing else |
| Person.ManaView | homework/structs/homework_test.go:36-41 | WithMana(m), m < 1024, on clear mana bits makes Mana() return m and changes nothing else |
| Person.HealthView | homework/structs/homework_test.go:43-48 | WithHealth(h), h < 1024, on clear health bits makes Health() return h and changes nothing else |
| Person.RespectView | homework/structs/homework_test.go:50-54 | WithRespect(r), r < 16, makes Respect() return r and changes nothing else |
| Person.StrengthView | homework/structs/homework_test.go:56-60 | WithStrength(r), r < 16, makes Strength() return r and changes nothing else |
| Person.ExperienceView | homework/structs/homework_test.go:62-66 | WithExperience(r), r < 16, makes Experience() return r and changes nothing else |
| Person.LevelView | homework/structs/homework_test.go:68-72 | WithLevel(r), r < 16, makes Level() return r and changes nothing else |
| Person.FlagView | homework/structs/homework_test.go:74-90 | setting house, weapon or family changes only the three Has* accessors |
| Person.HouseView | homework/structs/homework_test.go:74-78 | WithHouse makes HasHouse() true and changes nothing else |
| Person.GunView | homework/structs/homework_test.go:80-84 | WithGun makes HasGun() true and changes nothing else |
| Person.FamilyView | homework/structs/homework_test.go:86-90 | WithFamily makes HasFamilty() true and changes nothing else |
| Person.TypeView | homework/structs/homework_test.go:92-104 | WithType of a known type on flags with no type bit makes Type() return it and changes nothing else |
| Person.StepViewRecord | homework/structs/homework_test.go:13-34 | WithName, WithCoordinates and WithGold change the accessors as Expected says |
| Person.StepViewManaHealth | homework/structs/homework_test.go:36-48 | WithMana and WithHealth change the accessors as Expected says |
| Person.StepViewLowAttributes | homework/structs/homework_test.go:50-60 | WithRespect and WithStrength change the accessors as Expected says |
| Person.StepViewHighAttributes | homework/structs/homework_test.go:62-72 | WithExperience and WithLevel change the accessors as Expected says |
| Person.StepViewFlags | homework/structs/homework_test.go:74-104 | WithHouse, WithGun, WithFamily and WithType change the accessors as Expected says |
| Person.StepView | homework/structs/homework_test.go:13-104 | any option applied where it is sound makes its own accessors return the values given and leaves every other accessor unchanged |
| Person.RunView | homework/structs/homework_test.go:151-159 | a run in which every option is sound when applied makes the accessors read what the options promise in order, later ones winning |
| Person.StepKeepsByte1 | homework/structs/homework_test.go:36-48 | only WithMana and WithHealth write byte 1 of manahealth |
| Person.HealthKeepsManaBits | homework/structs/homework_test.go:43-48 | WithHealth of a value in 0..1023 keeps clear mana bits clear |
| Person.ManaKeepsHealthBits | homework/structs/homework_test.go:36-41 | WithMana keeps clear health bits clear |
| Person.StepKeepsManaBits | homework/structs/homework_test.go:36-48 | no lossless option other than WithMana sets a mana bit of byte 1 |
| Person.StepKeepsHealthBits | homework/structs/homework_test.go:36-48 | no option other than WithHealth sets a health bit of byte 1 |
| Person.StepKeepsFlags | homework/structs/homework_test.go:74-104 | only WithHouse, WithGun, WithFamily and WithType write the flags byte |
| Person.FlagKeepsTypeBitsStep | homework/structs/homework_test.go:74-90 | WithHouse, WithGun and WithFamily keep the type bits |
| Person.StepKeepsTypeBits | homework/structs/homework_test.go:92-104 | no option other than WithType sets a type bit |
| Person.StepKeepsReady | homework/structs/homework_test.go:36-104 | an option keeps another option ready to apply unless both OR into the same bits |
| Person.SoundOnce | homework/structs/homework_test.go:154-156 | lossless options, each of WithMana/WithHealth/WithType at most once, on clear shared bits, are each sound when reached |
| Person.ReadsBack | homework/structs/homework_test.go:151-159 | NewGamePerson with such options makes every accessor read what the options set, and fields no option sets read as in the zero record |
| Person.ZeroView | homework/structs/homework_test.go:152 | the zero record reads an empty name, zeros, false flags and the Builder type |
| Person.TestGamePerson | homework/structs/homework_test.go:243-288 | the test's options give the test's values: name, MinInt32/MaxInt32/0, gold MaxInt32, mana and health 1000, four 10s, house and family true, gun false, Builder |
| Person.TestOptionsLossless | homework/structs/homework_test.go:246-255 | every value of the test fits its field, and the test name has no zero byte |
| Person.TestExpected | homework/structs/homework_test.go:257-287 | what the test's options promise about the accessors, from the zero record |
| Person.GamePerson.constructor | homework/structs/homework_test.go:152 | `GamePerson{}` is the zero record |
| Person.GamePerson.Apply | homework/structs/homework_test.go:155 | `option(&person)` updates the record in place exactly as Step says |
| Person.GamePerson.ApplyName | homework/structs/homework_test.go:13-19 | the WithName closure writes the name field as Step says and nothing else |
| Person.GamePerson.ApplyCoordinates | homework/structs/homework_test.go:22-28 | the WithCoordinates closure writes x, y, z as Step says and nothing else |
| Person.GamePerson.ApplyGold | homework/structs/homework_test.go:30-34 | the WithGold closure writes gold as Step says and nothing else |
| Person.GamePerson.ApplyMana | homework/structs/homework_test.go:36-41 | the WithMana closure writes bytes 0 and 1 as Step says and nothing else |
| Person.GamePerson.ApplyHealth | homework/structs/homework_test.go:43-48 | the WithHealth closure writes bytes 1 and 2 as Step says and nothing else |
| Person.GamePerson.ApplyRespect | homework/structs/homework_test.go:50-54 | the WithRespect closure writes the attributes word as Step says and nothing else |
| Person.GamePerson.ApplyStrength | homework/structs/homework_test.go:56-60 | the WithStrength closure writes the attributes word as Step says and nothing else |
| Person.GamePerson.ApplyExperience | homework/structs/homework_test.go:62-66 | the WithExperience closure writes the attributes word as Step says and nothing else |
| Person.GamePerson.ApplyLevel | homework/structs/homework_test.go:68-72 | the WithLevel closure writes the attributes word as Step says and nothing else |
| Person.GamePerson.ApplyFlag | homework/structs/homework_test.go:74-90 | the WithHouse, WithGun and WithFamily closures write the flags as Step says and nothing else |
| Person.GamePerson.ApplyType | homework/structs/homework_test.go:92-104 | the WithType closure writes the flags as Step says and nothing else |
| Person.GamePerson.Name | homework/structs/homework_test.go:161-175 | the scanning loop returns the bytes before the first zero byte, or all 42 |
| Person.NewGamePerson | homework/structs/homework_test.go:151-159 | a fresh record whose storage is the zero record with every option applied in list order |
| Person.NewGamePersonScenario | homework/structs/homework_test.go:272-287 | the record's own accessors, after NewGamePerson with the test's options, return every value the test asserts |
| MultiErrors.Digit | homework/errors/homework_test.go:24 | a digit character whose code is the digit's value |
| MultiErrors.Decimal | homework/errors/homework_test.go:24 | `%d` of a count is non-empty and has no leading zero |
| MultiErrors.DecimalDigits | homework/errors/homework_test.go:24 | `%d` writes only decimal digits |
| MultiErrors.DecimalValue | homework/errors/homework_test.go:24 | the digits `%d` writes read back as the count itself |
| MultiErrors.ItemsAppend | homework/errors/homework_test.go:25-27 | the items of two lists are those of the first, then those of the second |
| MultiErrors.ItemsOne | homework/errors/homework_test.go:26 | one error contributes `"\t* "` and its message |
| MultiErrors.MessageEmpty | homework/errors/homework_test.go:19-22 | Error() is `""` exactly when the list is empty |
| MultiErrors.MessageOfNonEmpty | homework/errors/homework_test.go:23-29 | a non-empty list renders as the decimal count, `" errors occured:\n"`, each item with no separator, then `"\n"` |
| MultiErrors.MultiError.constructor | homework/errors/homework_test.go:38 | `&MultiError{errors: ...}` holds the list given |
| MultiErrors.MultiError.Error | homework/errors/homework_test.go:18-30 | the builder loop returns exactly Message of the list |
| MultiErrors.Append | homework/errors/homework_test.go:32-45 | given a *MultiError, returns that same object with errs appended in place; otherwise returns a new object holding [err] (nil: nothing) followed by errs; the length is the prior length plus len(errs) |
| MultiErrors.TwoErrorsHeader | homework/errors/homework_test.go:52 | the count line for two errors |
| MultiErrors.TwoErrorsItems | homework/errors/homework_test.go:52 | the items for "error 1" and "error 2" |
| MultiErrors.TwoErrorsMessage | homework/errors/homework_test.go:52 | the message of the two errors is the test's expected string |
| MultiErrors.AppendTwice | homework/errors/homework_test.go:47-54 | Append(nil, "error 1") then Append of that with "error 2" gives `"2 errors occured:\n\t* error 1\t* error 2\n"` |

## Left out

- The dependency-injection `Container` (homework/interfaces/homework_test.go) is not part of this model. Its behaviour is reflection over Go types and pointer identity.
- The `Test*` functions and the testify assertions are not modelled as such. Their scenarios are the lemma `Person.TestGamePerson`, the method `Person.NewGamePersonScenario` and the method `MultiErrors.AppendTwice`.
- `unsafe.Sizeof`, alignment and padding are left out. The size check is the sum of the declared field widths (`Layout.RecordFitsBudget`).
- Go strings are byte sequences here. There is no UTF-8. The name is `seq<bv8>` and messages are `seq<char>`.
- `manahealth` is a `[3]byte` value array in Go. It is a `seq<bv8>` field of length 3 here, which the closures reassign whole. No other object can alias it, in Go or in the model.
- Person.ReadsBack: requires each of WithMana, WithHealth and WithType at most once. These OR bits into `manahealth[1]` and `flags` without clearing them first, so a second application merges bits instead of overwriting them. `Step` models the merge exactly. For a repeated WithType, `Codec.PutTypeReadsBack` states what `Type()` reads on a flags byte that already has type bits: Blacksmith always wins, and Builder wins unless the Blacksmith bit was set. Only the mana/health merge has no read-back lemma.
- Person.StepView: requires the option's value to fit its field. Out-of-range values are truncated, or they corrupt neighbouring bits. `Step` models this, and the Codec lemmas state some of it (for example, `PutRespectSpec` says Respect() reads the low four bits), but the view lemma does not.
- Codec.HealthKeepsMana: requires health below 1024, because `health >> 8` is ORed in unmasked and a larger value sets bits of byte 1 outside bits 0-1: the reserved bits from 1024 up, the mana bits from 16384 up and for negative values.
- Codec.QuartetSettersOverwrite: requires the first value to be in 0..15, because `uint16(respect)` is ORed in unmasked and a larger value leaves bits in the neighbouring fields.
- Person.NameView: requires no zero byte among the name's first 42 bytes, because Name() stops at the first zero byte and an embedded zero shortens what it reads.
- The typed-nil `*MultiError` passed as a non-nil error to `Append` is left out. `ErrorArg.Multi` always holds an object.
- A `*MultiError` stored as an item of another MultiError is left out. Items are plain errors whose `Error()` is their message, as `errors.New` makes them.
- The internals of `fmt.Sprintf`, `strings.Builder` and `errors.New` are left out. The builder is a string that the loop extends, and `%d` is the verified `MultiErrors.Decimal`.
