# Owner test oracle of the pet-clinic API tests

This project models, in Dafny, the part of the pet-clinic API test suite
that decides whether an owner is right:

- the domain objects `Owner`, `Pet`, `Visit` and `PetType`, with the checks
  their validating setters make (lengths, the name and telephone regular
  expressions, non-negative ids);
- `OwnerChecker`, which compares a key/value snapshot of an owner (a JSON
  body or a row of the `owners` table) with the expected data, either softly
  (recording every mismatch in a `SoftAssertions` accumulator) or fail-fast
  (throwing at the first mismatch);
- `OwnerFactory`'s boundary values and the 13-case negative test matrix
  built from them;
- `OwnerMapper`, which builds an `Owner` from a snapshot through the
  validating setters;
- `ConfigUtils`, which resolves a configuration name from the environment,
  the system properties, a lazily loaded `application.properties` file or a
  default;
- the column names of `DatabaseConstants`.

Files: `Values.dfy` (Java's `null`, boxed values, exceptions),
`NamePatterns.dfy` (the three patterns: their languages, the matchers and
the proof that they agree), `Owner.dfy`, `Pet.dfy`, `Visit.dfy`,
`PetType.dfy`, `SoftAssertions.dfy`, `DatabaseConstants.dfy`,
`OwnerChecker.dfy`, `OwnerFactory.dfy`, `OwnerMapper.dfy` and
`ConfigUtils.dfy`.

Design choices:

- Objects whose setters change fields are classes. Each validating setter
  returns an `Outcome`, which is `Normal` or `Threw(exception)`. The setters
  of `Owner` tie the outcome and the new state to the pure rules
  `ValidateField` and `ValidateId`. The setters of `Pet`, `Visit` and
  `PetType` state their length and id rules in their own contracts.
- A `Map<String, Object>` is a `map<string, Value>`, where `Value` is `null`,
  a string, an `int` or a list. `Get` returns `Null` for an absent key, as
  `Map.get` does.
- The order in which a `HashMap` iterates its keys is not fixed by Java. The
  checker routines take it as a parameter `order` that lists every key once.
  For the two soft checks, `assertOwnerData(Map, Map)` and
  `assertOwnerDbData`, the model proves that the failures recorded do not
  depend on that order, up to permutation. The fail-fast `checkOwnerData`
  does depend on it: it throws the exception of the first offending column
  in iteration order, and a concrete row shows two orders that throw
  different exceptions.
- `\p{L}` is an unspecified character classifier, `IsLetter`. It is only
  required to agree with the ASCII letters on ASCII characters.
- The regular expressions are stated twice: as the language they denote
  (one to three letter runs joined by single separators, with an optional
  final `.` for last names), and as the matcher that splits the string at
  separators. Lemmas prove the two agree.
- `System.getenv`, `System.getProperty` and what loading
  `application.properties` would yield are parameters of each lookup.
- The code compares values with plain `equals`. An `Integer` never equals a
  `String`, and the model keeps that.

## Model

| member | source | states |
|---|---|---|
| `NamePatterns.FirstNamePatternCorrect` | src/test/java/model/Owner.java:19 | The first-name matcher accepts a string exactly when it is one to three letter runs joined by single space, apostrophe or hyphen separators. |
| `NamePatterns.LastNamePatternCorrect` | src/test/java/model/Owner.java:18 | The last-name matcher accepts exactly the first-name language, optionally followed by one final `.`. |
| `NamePatterns.SplitJoin` | src/test/java/model/Owner.java:18-19 | Splitting a string at separators loses nothing: joining the pieces with the separators gives the string back. |
| `NamePatterns.SplitInterleave` | src/test/java/model/Owner.java:18-19 | Joining words that contain no separator and then splitting gives the same words and separators back. |
| `NamePatterns.SplitCount` | src/test/java/model/Owner.java:18-19 | A string has one more piece than it has separators. |
| `NamePatterns.SplitPrefix` | src/test/java/model/Owner.java:18-19 | A leading part without separators is glued onto the first piece of the rest. |
| `NamePatterns.SeparatorsOfWord` | src/test/java/model/Owner.java:18-19 | A leading part without separators adds no separators. |
| `NamePatterns.LetterRunHasNoSeparator` | src/test/java/model/Owner.java:18-19 | A run of `\p{L}` letters holds none of the separators ` `, `'` and `-`. |
| `NamePatterns.SeparatorIsNoLetter` | src/test/java/model/Owner.java:18-19 | None of the separator characters is a letter. |
| `NamePatterns.MatchesFirstName` | src/test/java/model/Owner.java:44-47 | The first-name matcher accepts only non-empty strings with at most two separators; `FirstNamePatternCorrect` proves it is the pattern's language. |
| `NamePatterns.MatchesLastName` | src/test/java/model/Owner.java:63-66 | The last-name matcher accepts only non-empty strings, and one not ending in `.` only if it is also a valid first name. |
| `NamePatterns.AllDigits` | src/test/java/model/Owner.java:114-117 | A telephone accepted by `^[0-9]*$` holds no letter and no name separator. |
| `OwnerModel.ValidateId` | src/test/java/model/Owner.java:129-134 | The id check passes exactly for non-negative ids. It otherwise throws `IllegalArgumentException` as negative. |
| `OwnerModel.MatchesPatternCorrect` | src/test/java/model/Owner.java:18-20 | For every field, the pattern check a setter runs holds exactly when the value is in that field's pattern language. |
| `OwnerModel.ValidateField` | src/test/java/model/Owner.java:40-119 | A setter accepts a value exactly when its length is between 1 and the field's maximum (30, 30, 255, 80 or 20) and it is in the field's pattern language. Otherwise it throws `IllegalArgumentException`: for a bad length when the length is out of range, and for a pattern mismatch only when the length is allowed. |
| `OwnerModel.Owner.constructor` | src/test/java/model/Owner.java:21-34 | A new owner has every reference field `null` and id 0. |
| `OwnerModel.Owner.SetFirstName` | src/test/java/model/Owner.java:40-49 | Returns the validation outcome; on success it stores the name, and on failure it leaves the owner unchanged. |
| `OwnerModel.Owner.SetFirstNameNoValidation` | src/test/java/model/Owner.java:51-53 | Stores any first name and changes nothing else. |
| `OwnerModel.Owner.SetLastName` | src/test/java/model/Owner.java:59-68 | Returns the validation outcome; on success it stores the name, and on failure it leaves the owner unchanged. |
| `OwnerModel.Owner.SetLastNameNoValidation` | src/test/java/model/Owner.java:70-72 | Stores any last name and changes nothing else. |
| `OwnerModel.Owner.SetAddress` | src/test/java/model/Owner.java:78-84 | Accepts an address of 1 to 255 characters and stores it. Otherwise it throws and leaves the owner unchanged. |
| `OwnerModel.Owner.SetAddressNoValidation` | src/test/java/model/Owner.java:86-88 | Stores any address and changes nothing else. |
| `OwnerModel.Owner.SetCity` | src/test/java/model/Owner.java:94-100 | Accepts a city of 1 to 80 characters and stores it. Otherwise it throws and leaves the owner unchanged. |
| `OwnerModel.Owner.SetCityNoValidation` | src/test/java/model/Owner.java:102-104 | Stores any city and changes nothing else. |
| `OwnerModel.Owner.SetTelephone` | src/test/java/model/Owner.java:110-119 | Accepts 1 to 20 digits and stores them. Otherwise it throws and leaves the owner unchanged. |
| `OwnerModel.Owner.SetTelephoneNoValidation` | src/test/java/model/Owner.java:121-123 | Stores any telephone and changes nothing else. |
| `OwnerModel.Owner.SetId` | src/test/java/model/Owner.java:129-134 | Succeeds exactly when the id is not negative and then stores it. A negative id throws and is not stored. |
| `OwnerModel.Owner.SetIdNoValidation` | src/test/java/model/Owner.java:136-138 | Stores any id, negative ones included. |
| `OwnerModel.Owner.SetPets` | src/test/java/model/Owner.java:144-146 | Stores the pet list as given. |
| `PetModel.Pet.constructor` | src/test/java/model/Pet.java:15-26 | A new pet has `null` references, ids 0, and is valid. |
| `PetModel.Pet.SetName` | src/test/java/model/Pet.java:32-38 | Accepts any name of at most 30 characters, the empty name included. A longer one throws and is not stored. |
| `PetModel.Pet.SetBirthDate` | src/test/java/model/Pet.java:44-46 | Stores the date as given. |
| `PetModel.Pet.SetType` | src/test/java/model/Pet.java:52-54 | Stores the type as given. |
| `PetModel.Pet.SetId` | src/test/java/model/Pet.java:60-65 | Succeeds exactly when the id is not negative, and keeps the pet's id non-negative. |
| `PetModel.Pet.SetOwnerId` | src/test/java/model/Pet.java:71-76 | The guard tests the pet's own `id`, not `ownerId`. Any owner id, negative included, is stored, and on a valid pet the call never throws. |
| `PetModel.Pet.SetVisits` | src/test/java/model/Pet.java:82-84 | Stores the visit list as given. |
| `VisitModel.Visit.constructor` | src/test/java/model/Visit.java:13-20 | A new visit has `null` references and ids 0. |
| `VisitModel.Visit.SetDate` | src/test/java/model/Visit.java:26-28 | Stores the date as given. |
| `VisitModel.Visit.SetDescription` | src/test/java/model/Visit.java:34-40 | Accepts a description of 1 to 255 characters. Anything else throws and is not stored. |
| `VisitModel.Visit.SetId` | src/test/java/model/Visit.java:46-51 | Succeeds exactly when the id is not negative, and keeps the visit's id non-negative. |
| `VisitModel.Visit.SetPetId` | src/test/java/model/Visit.java:57-62 | The guard tests the visit's own `id`, not `petId`. Any pet id is stored, and on a valid visit the call never throws. |
| `PetTypeModel.PetType.constructor` | src/test/java/model/PetType.java:9-12 | A new pet type has a `null` name and id 0. |
| `PetTypeModel.PetType.SetName` | src/test/java/model/PetType.java:18-24 | Accepts a name of 1 to 80 characters. Anything else throws and is not stored. |
| `PetTypeModel.PetType.SetId` | src/test/java/model/PetType.java:30-35 | Succeeds exactly when the id is not negative, and stores it only then. |
| `OwnerChecker.AssertOwnerDataMap` | src/test/java/check/OwnerChecker.java:16-31 | Appends, key by key in iteration order, the failures `WireFailures` describes, then the pets check. The outcome is a `NullPointerException` for a missing `pets`, a `ClassCastException` for a non-list, and normal otherwise. |
| `OwnerChecker.WireFailuresIndependentOfOrder` | src/test/java/check/OwnerChecker.java:17-26 | Two iteration orders of the same map record the same failures, as multisets. |
| `OwnerChecker.WireFailuresEmptyIff` | src/test/java/check/OwnerChecker.java:17-26 | The key loop records nothing exactly when every key of the actual data except `pets` has a non-null expected value equal to its own. |
| `OwnerChecker.UnexpectedKeyRecorded` | src/test/java/check/OwnerChecker.java:18-23 | "Unexpected key" is recorded exactly for the non-`pets` actual keys whose expected value is null or absent, and it carries the actual value. |
| `OwnerChecker.UnexpectedKeyAlsoUnequal` | src/test/java/check/OwnerChecker.java:21-24 | Such a key with a non-null actual value also records a failed equality against null, so it is reported twice. |
| `OwnerChecker.WireFailuresReadOnlyActualKeys` | src/test/java/check/OwnerChecker.java:17-20 | Expected keys that the actual data lacks are never read: two expected maps that agree on the actual keys record the same failures. |
| `OwnerChecker.IdenticalSnapshotPasses` | src/test/java/check/OwnerChecker.java:16-31 | A snapshot without null values and with an empty `pets` list passes against itself. |
| `OwnerChecker.CollectPermutation` | src/test/java/check/OwnerChecker.java:17 | Reordering the iterated keys permutes what is recorded, and nothing more. |
| `OwnerChecker.CollectAppend` | src/test/java/check/OwnerChecker.java:17 | What a loop over two key sequences records is what the first records followed by what the second records. |
| `OwnerChecker.CollectOne` | src/test/java/check/OwnerChecker.java:17 | A loop over one key records what that key records. |
| `OwnerChecker.CollectEmpty` | src/test/java/check/OwnerChecker.java:17 | A loop records nothing exactly when no iterated key records anything. |
| `OwnerChecker.CollectMember` | src/test/java/check/OwnerChecker.java:17 | A loop records a failure exactly when some iterated key records it. |
| `OwnerChecker.CollectSameOnKeys` | src/test/java/check/OwnerChecker.java:17 | Two loop bodies that agree on the iterated keys record the same failures. |
| `OwnerChecker.DistinctCount` | src/test/java/check/OwnerChecker.java:17 | In an order without repeats, every key occurs once or not at all. |
| `OwnerChecker.SameKeys` | src/test/java/check/OwnerChecker.java:17 | Any two iteration orders of one map hold the same keys. |
| `OwnerChecker.AssertOwnerDataObject` | src/test/java/check/OwnerChecker.java:33-43 | Appends one failure for each of the six getters, in the order address, city, id, telephone, last name, first name, whose value differs from the snapshot's value under its key. `pets` is not compared. |
| `OwnerChecker.AssertOwnerDbData` | src/test/java/check/OwnerChecker.java:45-57 | Appends, column by column in iteration order, a failed equality for each known column whose value differs from the expected value under the matching wire key. Each unknown column gets an "unexpected column" failure. |
| `OwnerChecker.WireKeyOfColumns` | src/test/java/check/OwnerChecker.java:47-54 | Each of the six columns maps to the wire key of the same field. |
| `OwnerChecker.WireKeyOf` | src/test/java/check/OwnerChecker.java:47-54 | The column switch knows exactly the six columns of `DatabaseConstants`, and maps each to one of the six scalar wire keys, never to `pets`. |
| `OwnerChecker.DbFailuresIndependentOfOrder` | src/test/java/check/OwnerChecker.java:46-56 | Two iteration orders of the same row record the same failures, as multisets. |
| `OwnerChecker.ColumnCheck` | src/test/java/check/OwnerChecker.java:63-88 | One column of the fail-fast check. It throws `NullPointerException` exactly when the column is known and its value is null, and otherwise only `IllegalStateException`. A column that passes records nothing in the soft check either. |
| `OwnerChecker.CheckOwnerDataDependsOnOrder` | src/test/java/check/OwnerChecker.java:62-89 | For the row holding an unknown column `zz` and a null `address`, the column visited first decides the exception: `IllegalStateException` for `zz`, `NullPointerException` for `address`. |
| `OwnerChecker.PetsCheck` | src/test/java/check/OwnerChecker.java:27-30 | The pets check completes normally exactly when `pets` is a list. It records at most the one "Pets should be empty" failure, and records it exactly when the list is non-empty. |
| `OwnerChecker.OwnerFailures` | src/test/java/check/OwnerChecker.java:33-43 | The object check records at most six failures. It records none exactly when all six snapshot values equal the owner's getters: the strings, or `null`, and the id. |
| `OwnerChecker.OwnerFailuresOnlySixKeys` | src/test/java/check/OwnerChecker.java:33-43 | Two snapshots that agree on the six scalar keys give the same failures: `pets` and any extra key are ignored. |
| `OwnerChecker.DbFailuresEmptyIff` | src/test/java/check/OwnerChecker.java:45-57 | The soft database check records nothing exactly when every column is known and equal to the expected value under its wire key. |
| `OwnerChecker.UnknownColumnRecorded` | src/test/java/check/OwnerChecker.java:54 | "Unexpected database table column" is recorded exactly for the unknown columns of the row. |
| `OwnerChecker.CheckOwnerData` | src/test/java/check/OwnerChecker.java:59-91 | Returns normally exactly when every column is known, non-null and equal to the expected value under its wire key. Otherwise it throws what the first offending column in iteration order throws: `IllegalStateException` for an unknown column or a mismatch, `NullPointerException` for a null column value. |
| `OwnerChecker.CheckPassImpliesNoDbFailures` | src/test/java/check/OwnerChecker.java:45-91 | A row that passes the fail-fast check also passes the soft one. |
| `OwnerChecker.NullColumnSplitsTheChecks` | src/test/java/check/OwnerChecker.java:45-91 | The converse fails: a null column whose expected value is also missing passes the soft check but makes the fail-fast check throw. |
| `OwnerFactory.GetNegativeTestData` | src/test/java/data/OwnerFactory.java:35-106 | Returns the 13 cases in emission order. Each is the baseline with the row's field replaced by the row's boundary value, under the row's display name, expecting status 400. |
| `OwnerFactory.NegativeCaseChangesOneKey` | src/test/java/data/OwnerFactory.java:38-76 | A case differs from its baseline under exactly one key, the mutated field's. Where the baseline holds a valid value, the new value is a different one. |
| `OwnerFactory.NegativeMatrixBreaksOneRule` | src/test/java/data/OwnerFactory.java:78-105 | Every row breaks exactly the rule its name gives. A "too short" value is empty. A "too long" value exceeds the field's maximum yet matches its pattern. A "doesn't comply with pattern" value has an allowed length. The setter refuses each row for exactly that reason. |
| `OwnerFactory.FirstNameRowsBreakOneRule` | src/test/java/data/OwnerFactory.java:142-152 | The three first-name rows each break their one rule. |
| `OwnerFactory.LastNameRowsBreakOneRule` | src/test/java/data/OwnerFactory.java:154-164 | The three last-name rows each break their one rule. |
| `OwnerFactory.AddressAndCityRowsBreakOneRule` | src/test/java/data/OwnerFactory.java:166-180 | The address value is 260 characters long and the city value 87. Both are too long, and the empty values are too short. |
| `OwnerFactory.TelephoneRowsBreakOneRule` | src/test/java/data/OwnerFactory.java:182-192 | The 25-digit telephone is too long but all digits; `1234567890*/-a` has an allowed length but is not all digits. |
| `OwnerFactory.TooLongFirstNameMatches` | src/test/java/data/OwnerFactory.java:146-148 | The too-long first name is in the first-name pattern language, so only its length breaks the rule. |
| `OwnerFactory.TooLongLastNameMatches` | src/test/java/data/OwnerFactory.java:158-160 | The too-long last name is in the last-name pattern language. |
| `OwnerFactory.TooLongFirstNameSpelled` | src/test/java/data/OwnerFactory.java:146-148 | The too-long first name is two letter runs joined by a space. |
| `OwnerFactory.TooLongLastNameSpelled` | src/test/java/data/OwnerFactory.java:158-160 | The too-long last name is two letter runs joined by a space. |
| `OwnerFactory.AgainstPatternFirstNameSpelled` | src/test/java/data/OwnerFactory.java:150-152 | `John'john'john'johnny` is four letter runs joined by apostrophes. |
| `OwnerFactory.AgainstPatternFirstNameFails` | src/test/java/data/OwnerFactory.java:150-152 | `John'john'john'johnny` is outside the first-name language, because it has four parts where at most three are allowed. |
| `OwnerFactory.AgainstPatternLastNameSpelled` | src/test/java/data/OwnerFactory.java:162-164 | `Doe-doe-doe-doe-doe` is five letter runs joined by hyphens. |
| `OwnerFactory.AgainstPatternLastNameFails` | src/test/java/data/OwnerFactory.java:162-164 | `Doe-doe-doe-doe-doe` is outside the last-name language. |
| `OwnerFactory.TooManyWords` | src/test/java/model/Owner.java:19 | No string of four or more separator-free words joined by separators is in the first-name language. |
| `OwnerFactory.TooManyWordsNoDot` | src/test/java/model/Owner.java:18 | Such a string that does not end in `.` is not in the last-name language either. |
| `OwnerFactory.TwoWordName` | src/test/java/model/Owner.java:19 | Two ASCII letter runs joined by a space form a first name. |
| `OwnerFactory.AsciiLetterRun` | src/test/java/model/Owner.java:18-19 | A non-empty run of ASCII letters matches `[\p{L}]+`. |
| `OwnerFactory.GetOwnerTestInvalidData` | src/test/java/data/OwnerFactory.java:127-140 | The invalid owner holds a string under every string field's wire key and only strings. It holds no `id` and no `pets`. |
| `OwnerFactory.DeepCopy` | src/test/java/data/OwnerFactory.java:108-110 | The copy has the same keys and the same value under each key. |
| `OwnerFactory.TooLongTelephoneDigits` | src/test/java/data/OwnerFactory.java:186-188 | The 25-character too-long telephone is all digits, so only its length breaks the rule. |
| `OwnerFactory.InvalidDataRejectedField` | src/test/java/data/OwnerFactory.java:127-140 | The invalid owner has a string under every field's key, and the field's setter refuses each of them. |
| `OwnerFactory.NegativeIdRejected` | src/test/java/data/OwnerFactory.java:194-196 | `setId` refuses the negative id -42 as negative. |
| `OwnerMapper.MapOwner` | src/test/java/mapper/OwnerMapper.java:19-26 | The mapping on values. A built owner has a non-negative id equal to the map's id value. A failure is `NullPointerException`, `ClassCastException` or a setter's `IllegalArgumentException`. |
| `OwnerMapper.StringStep` | src/test/java/mapper/OwnerMapper.java:21-25 | One string line of the mapping. It passes exactly for `null` or a string the setter accepts, and changes no other field. Its failures are `ClassCastException` or the setter's `IllegalArgumentException`. |
| `OwnerMapper.IdStep` | src/test/java/mapper/OwnerMapper.java:26 | The id line passes exactly for a non-negative int, stores it and changes no string field. `null` throws `NullPointerException` at the unboxing. |
| `OwnerMapper.FromKeyValues` | src/test/java/mapper/OwnerMapper.java:19-27 | Returns an owner exactly when the mapping on values succeeds. The owner is fresh and its getters give the mapped state. Otherwise it returns the exception that ended the mapping. |
| `OwnerMapper.FromDbKeyValues` | src/test/java/mapper/OwnerMapper.java:40-50 | The same mapping on column names. On success the owner's `pets` is `null`. |
| `OwnerMapper.FromKeys` | src/test/java/mapper/OwnerMapper.java:20-26 | The setter calls in source order, stopping at the first exception; the result agrees with `MapOwner`. |
| `OwnerMapper.ApplyString` | src/test/java/mapper/OwnerMapper.java:21-25 | A `null` value skips the setter. A string calls it, and any other value throws `ClassCastException`. The owner's `pets` is untouched. |
| `OwnerMapper.SetField` | src/test/java/mapper/OwnerMapper.java:21-25 | Dispatches to the validating setter of the field, with that setter's outcome and effect. |
| `OwnerMapper.MapOwnerSucceedsIff` | src/test/java/mapper/OwnerMapper.java:19-50 | The mapping succeeds exactly when every string key holds `null` or a value its setter accepts, and the id key holds a non-negative int. |
| `OwnerMapper.MapOwnerReadsBack` | src/test/java/mapper/OwnerMapper.java:19-50 | The built owner's getters return what the map holds under the mapped keys. An absent string key leaves its field `null`. |
| `OwnerMapper.MissingIdFails` | src/test/java/mapper/OwnerMapper.java:26 | An absent or `null` id makes the mapping fail. When the string fields are all acceptable, it fails with `NullPointerException`. |
| `OwnerMapper.InvalidValuePropagates` | src/test/java/mapper/OwnerMapper.java:21-25 | A present string that its setter refuses makes the mapping fail. When it is the only offending value, the mapping throws the setter's exception. |
| `OwnerMapper.MapOwnerRoundTrip` | src/test/java/mapper/OwnerMapper.java:19-50 | Mapping the snapshot of a valid owner rebuilds that owner, under either key set. |
| `OwnerMapper.MappedOwnerIsValid` | src/test/java/mapper/OwnerMapper.java:19-50 | Every owner the mapping builds is one every setter would accept, and mapping its snapshot gives it back. |
| `OwnerMapper.MappedOwnerPassesObjectCheck` | src/test/java/check/OwnerChecker.java:33-43 | Comparing a wire snapshot with the owner mapped from it records no failure. |
| `OwnerMapper.KeysDistinct` | src/test/java/db/DatabaseConstants.java:5-10 | The six names each mapping reads are pairwise distinct. |
| `OwnerMapper.StepStoresField` | src/test/java/mapper/OwnerMapper.java:21-25 | A `null` value, or a string the setter accepts, is stored by its step. |
| `Config.ConfigUtils.constructor` | src/test/java/util/ConfigUtils.java:8-9 | The static state starts with empty `props` and `useProps` set. |
| `Config.ConfigUtils.GetValue` | src/test/java/util/ConfigUtils.java:12-27 | Returns the environment variable if set. Otherwise an empty name throws `IllegalArgumentException`, as `System.getProperty` does. Otherwise it returns the system property if set, else the file lookup, with its state change. |
| `Config.ConfigUtils.GetFromProps` | src/test/java/util/ConfigUtils.java:29-47 | Without `useProps` it returns the default. Otherwise it loads the file when `props` is empty, clears `useProps` if the load throws, and answers from `props`. |
| `Config.ConfigUtils.LoadProperties` | src/test/java/util/ConfigUtils.java:63-71 | Returns normally exactly when the file is found and read. A missing file throws `RuntimeException` with its message, and a read error throws `IOException`. `props` gains what was read. |
| `Config.FileKeyInjective` | src/test/java/util/ConfigUtils.java:49-61 | Two distinct configuration names never read the same file key. |
| `Config.ResolvePrecedence` | src/test/java/util/ConfigUtils.java:12-27 | The environment wins over the system property, which wins over the file. An empty name that is not an environment variable throws `IllegalArgumentException` and changes nothing. A name outside the eight listed ones gets its default. |
| `Config.BaseUrlFromFile` | src/test/java/util/ConfigUtils.java:43-56 | A file holding `base.url=u` makes the first `BASE_URL` lookup load it and return `u`. |
| `Config.Resolve` | src/test/java/util/ConfigUtils.java:12-27 | One `getValue` call on the static state. It throws exactly when the name is empty and not an environment variable, and then leaves the state alone. Only a lookup that reaches the file and finds it unloaded can change the state. `useProps` is never set again once cleared, and file entries are never removed. |
| `Config.Run` | src/test/java/util/ConfigUtils.java:12-47 | A series of lookups gives one answer per lookup. Over the series `useProps` is never set again once cleared, and no file entry is removed. |
| `Config.FromProps` | src/test/java/util/ConfigUtils.java:29-47 | Without `useProps`, it returns the default and leaves the state as it is. The answer is either the default or a value present in `props` after the call. Entries are only added, and `useProps` is never set again. |
| `Config.AfterLoad` | src/test/java/util/ConfigUtils.java:36-41 | A load keeps every existing entry and `useProps` survives only a successful read. After a successful read, every entry of the file is in `props` with the file's value. |
| `Config.GetProperty` | src/test/java/util/ConfigUtils.java:49-61 | A name of the switch whose file key is in `props` gets that entry. An answer other than the default is always such an entry. A name outside the switch always gets the default. |
| `Config.FileKey` | src/test/java/util/ConfigUtils.java:50-60 | Exactly the eight configuration names of the switch have a file key. |
| `Config.FirstLookupLoadsFile` | src/test/java/util/ConfigUtils.java:29-47 | The first lookup that reaches the file loads it and answers from its entries. |
| `Config.SettledStateIsStable` | src/test/java/util/ConfigUtils.java:29-47 | Once no load is pending, the state never changes, no load runs, and every lookup answers from that state. |
| `Config.FailedLoadIsPermanent` | src/test/java/util/ConfigUtils.java:30-31 | After a failed load, every lookup that reaches the file gets its default, and no load runs again. |
| `Config.FailedLoadClearsUseProps` | src/test/java/util/ConfigUtils.java:36-41 | A load that finds no file or fails to read clears `useProps`. |
| `Config.AtMostOneLoad` | src/test/java/util/ConfigUtils.java:33-44 | Unless the file is found and empty, any series of lookups loads the file at most once. |
| `Config.EmptyFileReloadsEveryTime` | src/test/java/util/ConfigUtils.java:35 | A found but empty file leaves `props` empty, so every lookup that reaches it loads it again and gets its default. |

## Left out

- The `pets` branch of `fromKeyValues` (`src/test/java/mapper/OwnerMapper.java:28-36`): JSON parsing of the pets is not modelled, so `FromKeyValues` does not set `pets`. A `pets` value that is a list would make the `(String)` cast throw `ClassCastException`; that is not modelled either.
- `FromKeyValues`: does not state `pets == None` on success, because the `pets` step is left out.
- `DeepCopy`: the JSON round trip is the identity on maps of strings and ints. Maps are values here, so copying has no aliasing to break.
- `getRandomOwnerTestData` (Faker) is not modelled: the baseline of `GetNegativeTestData` is a parameter.
- The database and HTTP helpers of `OwnerFactory` (`getOwnerDataFromDatabase` and the others) are not modelled, because they are JDBC and REST I/O.
- Logging (`logger.debug`, `System.out.println`) is not modelled.
- The `synchronized` block of `getFromProps` and concurrent lookups are not modelled: lookups are sequential.
- `Properties.load` parsing is not modelled: a load yields a map of entries, or the entries read before an `IOException`.
- `IsLetter`: `\p{L}` is pinned down only on ASCII. Unicode letters beyond ASCII are some classifier consistent with it.
- String lengths count `char`s, as Java's UTF-16 `length()` does. The model's characters are Dafny `char`s, so a supplementary character counts as one, not two.
- `null` arguments to the setters (a `NullPointerException` at `isEmpty()`) are not modelled: setter arguments are strings.
- `GetValue`: a `null` configuration name, which throws `NullPointerException` at `System.getenv`, is not modelled: names are strings. The empty name is modelled.
- A JDBC row map that ignores case in its keys is not modelled: column names are compared exactly.
- `Pet` and `Visit` JSON equality, and the commented-out `pets` comparison of `assertOwnerData(Map, Owner)`, are not modelled.
