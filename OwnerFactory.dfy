/**
 * `data.OwnerFactory`: the boundary values of the owner fields and the
 * negative test matrix built from them. Each case is a copy of a valid
 * baseline owner with exactly one field replaced, paired with the status
 * the API must answer (400).
 */
module OwnerFactory {
  import opened Values
  import opened NamePatterns
  import opened OwnerModel

  const BadRequest := 400

  const TooShortFirstName := ""
  const TooLongFirstName := "Firstname longerthanthirtycharacters"
  const AgainstPatternFirstName := "John'john'john'johnny"
  const TooShortLastName := ""
  const TooLongLastName := "Lastname longerthanthirtycharacters"
  const AgainstPatternLastName := "Doe-doe-doe-doe-doe"
  const TooShortAddress := ""
  const TooLongAddress := "Longest-Cityname-longer-than-Llanfairpwllgwyngyllgogerychwyrndrobwllllantysiliogogogoch, Taumatawhakatangihangakoauauotamateaturipukakapikimaungahoronukupokaiwhenuakitanatahu str. 4729805379023485643090853840234785639056483024820438320, bld. 2147483647, fl. 13"
  const TooShortCity := ""
  const TooLongCity := "Longest-Cityname-longer-than-Llanfairpwllgwyngyllgogerychwyrndrobwllllantysiliogogogoch"
  const TooShortTelephone := ""
  const TooLongTelephone := "1234567890123456789012345"
  const AgainstPatternTelephone := "1234567890*/-a"
  const OwnerNegativeId: Int32 := -42

  /** The rule a boundary value breaks. */
  datatype Axis = TooLong | TooShort | AgainstPattern

  /** One row of the matrix: its display name, the field replaced and the value put there. */
  datatype Mutation = Mutation(name: string, field: StringField, axis: Axis, value: string)

  /** The rows in the order they are emitted. */
  const NegativeMatrix: seq<Mutation> := [
    Mutation("Valid data with invalid first name (too long)", FirstName, TooLong, TooLongFirstName),
    Mutation("Valid data with invalid first name (too short)", FirstName, TooShort, TooShortFirstName),
    Mutation("Valid data with invalid first name (doesn't comply with pattern)", FirstName, AgainstPattern, AgainstPatternFirstName),
    Mutation("Valid data with invalid last name (too long)", LastName, TooLong, TooLongLastName),
    Mutation("Valid data with invalid last name (too short)", LastName, TooShort, TooShortLastName),
    Mutation("Valid data with invalid last name (doesn't comply with pattern)", LastName, AgainstPattern, AgainstPatternLastName),
    Mutation("Valid data with invalid address (too long)", Address, TooLong, TooLongAddress),
    Mutation("Valid data with invalid address (too short)", Address, TooShort, TooShortAddress),
    Mutation("Valid data with invalid city (too long)", City, TooLong, TooLongCity),
    Mutation("Valid data with invalid city (too short)", City, TooShort, TooShortCity),
    Mutation("Valid data with invalid telephone (too long)", Telephone, TooLong, TooLongTelephone),
    Mutation("Valid data with invalid telephone (too short)", Telephone, TooShort, TooShortTelephone),
    Mutation("Valid data with invalid telephone (doesn't comply with pattern)", Telephone, AgainstPattern, AgainstPatternTelephone)
  ]

  /** A named test argument: the request body and the status expected for it. */
  datatype NegativeCase = NegativeCase(name: string, data: map<string, Value>, expectedStatus: int)

  /** The copy through JSON; on maps of strings it yields an equal, independent map. */
  function DeepCopy(data: map<string, Value>): (copy: map<string, Value>)
    ensures copy.Keys == data.Keys
    ensures forall key :: key in data ==> copy[key] == data[key]
  {
    data
  }

  /** The case a row makes of a baseline. */
  function CaseOf(baseline: map<string, Value>, m: Mutation): NegativeCase
  {
    NegativeCase(m.name, baseline[WireKey(m.field) := Str(m.value)], BadRequest)
  }

  /**
   * Builds the 13 cases from a valid baseline (the source draws it from a
   * random generator). Maps are values here, so the baseline is untouched.
   */
  method GetNegativeTestData(randomCorrectData: map<string, Value>) returns (cases: seq<NegativeCase>)
    ensures |cases| == |NegativeMatrix| == 13
    ensures forall i :: 0 <= i < |cases| ==> cases[i] == CaseOf(randomCorrectData, NegativeMatrix[i])
    ensures forall i :: 0 <= i < |cases| ==> cases[i].expectedStatus == BadRequest
  {
    var onlyLongFirstName := DeepCopy(randomCorrectData);
    onlyLongFirstName := onlyLongFirstName[FieldFirstName := Str(TooLongFirstName)];
    var onlyShortFirstName := DeepCopy(randomCorrectData);
    onlyShortFirstName := onlyShortFirstName[FieldFirstName := Str(TooShortFirstName)];
    var onlyInvalidFirstName := DeepCopy(randomCorrectData);
    onlyInvalidFirstName := onlyInvalidFirstName[FieldFirstName := Str(AgainstPatternFirstName)];
    var onlyLongLastName := DeepCopy(randomCorrectData);
    onlyLongLastName := onlyLongLastName[FieldLastName := Str(TooLongLastName)];
    var onlyShortLastName := DeepCopy(randomCorrectData);
    onlyShortLastName := onlyShortLastName[FieldLastName := Str(TooShortLastName)];
    var onlyInvalidLastName := DeepCopy(randomCorrectData);
    onlyInvalidLastName := onlyInvalidLastName[FieldLastName := Str(AgainstPatternLastName)];
    var onlyShortAddress := DeepCopy(randomCorrectData);
    onlyShortAddress := onlyShortAddress[FieldAddress := Str(TooShortAddress)];
    var onlyLongAddress := DeepCopy(randomCorrectData);
    onlyLongAddress := onlyLongAddress[FieldAddress := Str(TooLongAddress)];
    var onlyShortCity := DeepCopy(randomCorrectData);
    onlyShortCity := onlyShortCity[FieldCity := Str(TooShortCity)];
    var onlyLongCity := DeepCopy(randomCorrectData);
    onlyLongCity := onlyLongCity[FieldCity := Str(TooLongCity)];
    var onlyLongTelephone := DeepCopy(randomCorrectData);
    onlyLongTelephone := onlyLongTelephone[FieldTelephone := Str(TooLongTelephone)];
    var onlyShortTelephone := DeepCopy(randomCorrectData);
    onlyShortTelephone := onlyShortTelephone[FieldTelephone := Str(TooShortTelephone)];
    var onlyInvalidTelephone := DeepCopy(randomCorrectData);
    onlyInvalidTelephone := onlyInvalidTelephone[FieldTelephone := Str(AgainstPatternTelephone)];

    cases := [
      NegativeCase(NegativeMatrix[0].name, onlyLongFirstName, BadRequest),
      NegativeCase(NegativeMatrix[1].name, onlyShortFirstName, BadRequest),
      NegativeCase(NegativeMatrix[2].name, onlyInvalidFirstName, BadRequest),
      NegativeCase(NegativeMatrix[3].name, onlyLongLastName, BadRequest),
      NegativeCase(NegativeMatrix[4].name, onlyShortLastName, BadRequest),
      NegativeCase(NegativeMatrix[5].name, onlyInvalidLastName, BadRequest),
      NegativeCase(NegativeMatrix[6].name, onlyLongAddress, BadRequest),
      NegativeCase(NegativeMatrix[7].name, onlyShortAddress, BadRequest),
      NegativeCase(NegativeMatrix[8].name, onlyLongCity, BadRequest),
      NegativeCase(NegativeMatrix[9].name, onlyShortCity, BadRequest),
      NegativeCase(NegativeMatrix[10].name, onlyLongTelephone, BadRequest),
      NegativeCase(NegativeMatrix[11].name, onlyShortTelephone, BadRequest),
      NegativeCase(NegativeMatrix[12].name, onlyInvalidTelephone, BadRequest)
    ];
  }

  /** The five fields set to invalid values: one against its pattern, three too long, one too short. */
  function GetOwnerTestInvalidData(): (data: map<string, Value>)
    ensures forall f :: WireKey(f) in data
    ensures forall key :: key in data ==> data[key].Str?
    ensures FieldId !in data && FieldPets !in data
  {
    map[
      FieldFirstName := Str(AgainstPatternFirstName),
      FieldLastName := Str(TooLongLastName),
      FieldAddress := Str(TooLongAddress),
      FieldCity := Str(TooShortCity),
      FieldTelephone := Str(TooLongTelephone)
    ]
  }

  // ---------------------------------------------------------------------
  // The boundary values against the rules of Owner

  /** A non-empty run of ASCII letters is a `[\p{L}]+` run. */
  lemma AsciiLetterRun(w: string)
    requires |w| > 0 && forall i :: 0 <= i < |w| ==> AsciiLetter(w[i])
    ensures LetterRun(w)
  {
    assert AgreesWithAscii(IsLetter);
  }

  /** Two ASCII letter runs joined by a space are a two-word name. */
  lemma TwoWordName(w1: string, w2: string)
    requires |w1| > 0 && forall i :: 0 <= i < |w1| ==> AsciiLetter(w1[i])
    requires |w2| > 0 && forall i :: 0 <= i < |w2| ==> AsciiLetter(w2[i])
    ensures FirstNameLanguage(w1 + [' '] + w2)
  {
    AsciiLetterRun(w1);
    AsciiLetterRun(w2);
    assert NameParts([w1, w2], [' ']);
    assert Interleave([w1, w2], [' ']) == w1 + [' '] + w2;
  }

  lemma TooLongFirstNameSpelled()
    ensures TooLongFirstName == "Firstname" + [' '] + "longerthanthirtycharacters"
  {
  }

  lemma TooLongFirstNameMatches()
    ensures FirstNameLanguage(TooLongFirstName)
  {
    TwoWordName("Firstname", "longerthanthirtycharacters");
    TooLongFirstNameSpelled();
  }

  lemma TooLongLastNameSpelled()
    ensures TooLongLastName == "Lastname" + [' '] + "longerthanthirtycharacters"
  {
  }

  lemma TooLongLastNameMatches()
    ensures LastNameLanguage(TooLongLastName)
  {
    TwoWordName("Lastname", "longerthanthirtycharacters");
    TooLongLastNameSpelled();
  }

  /** Four or more separator-joined words are too many for a first name. */
  lemma TooManyWords(words: seq<string>, seps: seq<char>)
    requires |words| >= 4 && |seps| == |words| - 1
    requires forall i :: 0 <= i < |words| ==> NoSeparator(words[i])
    requires forall i :: 0 <= i < |seps| ==> IsSeparator(seps[i])
    ensures !FirstNameLanguage(Interleave(words, seps))
  {
    SplitInterleave(words, seps);
    FirstNamePatternCorrect(Interleave(words, seps));
  }

  /** ... and, without a trailing dot, for a last name. */
  lemma TooManyWordsNoDot(words: seq<string>, seps: seq<char>)
    requires |words| >= 4 && |seps| == |words| - 1
    requires forall i :: 0 <= i < |words| ==> NoSeparator(words[i])
    requires forall i :: 0 <= i < |seps| ==> IsSeparator(seps[i])
    requires var s := Interleave(words, seps); |s| > 0 && s[|s| - 1] != '.'
    ensures !LastNameLanguage(Interleave(words, seps))
  {
    TooManyWords(words, seps);
    LastNamePatternCorrect(Interleave(words, seps));
  }

  lemma AgainstPatternFirstNameSpelled()
    ensures AgainstPatternFirstName == Interleave(["John", "john", "john", "johnny"], "'''")
  {
    var words, seps := ["John", "john", "john", "johnny"], "'''";
    assert Interleave(words[3..], seps[3..]) == "johnny";
    assert Interleave(words[2..], seps[2..]) == "john'johnny";
    assert Interleave(words[1..], seps[1..]) == "john'john'johnny";
  }

  /** "John'john'john'johnny" has three separators, one more than the pattern allows. */
  lemma AgainstPatternFirstNameFails()
    ensures !FirstNameLanguage(AgainstPatternFirstName)
  {
    assert NoSeparator("John") && NoSeparator("john") && NoSeparator("johnny");
    TooManyWords(["John", "john", "john", "johnny"], "'''");
    AgainstPatternFirstNameSpelled();
  }

  lemma AgainstPatternLastNameSpelled()
    ensures AgainstPatternLastName == Interleave(["Doe", "doe", "doe", "doe", "doe"], "----")
  {
    var words, seps := ["Doe", "doe", "doe", "doe", "doe"], "----";
    assert Interleave(words[4..], seps[4..]) == "doe";
    assert Interleave(words[3..], seps[3..]) == "doe-doe";
    assert Interleave(words[2..], seps[2..]) == "doe-doe-doe";
    assert Interleave(words[1..], seps[1..]) == "doe-doe-doe-doe";
  }

  /** "Doe-doe-doe-doe-doe" has four separators and no trailing dot. */
  lemma AgainstPatternLastNameFails()
    ensures !LastNameLanguage(AgainstPatternLastName)
  {
    assert NoSeparator("Doe") && NoSeparator("doe");
    AgainstPatternLastNameSpelled();
    TooManyWordsNoDot(["Doe", "doe", "doe", "doe", "doe"], "----");
  }

  /**
   * A row breaks exactly the rule its axis names: a too-short value is
   * empty, a too-long one exceeds the field's maximum while still matching
   * its pattern, and an against-pattern one has an allowed length. The
   * setter refuses each for that reason.
   */
  ghost predicate BreaksOneRule(m: Mutation)
  {
    && (m.axis == TooShort ==> m.value == "")
    && (m.axis == TooLong ==> |m.value| > MaxLength(m.field) && InPatternLanguage(m.field, m.value))
    && (m.axis == AgainstPattern ==> 1 <= |m.value| <= MaxLength(m.field) && !InPatternLanguage(m.field, m.value))
    && ValidateField(m.field, m.value)
       == Threw(IllegalArgument(if m.axis == AgainstPattern then PatternMismatch else LengthOutOfRange))
  }

  lemma FirstNameRowsBreakOneRule()
    ensures BreaksOneRule(NegativeMatrix[0]) && BreaksOneRule(NegativeMatrix[1]) && BreaksOneRule(NegativeMatrix[2])
  {
    TooLongFirstNameMatches();
    AgainstPatternFirstNameFails();
    assert |AgainstPatternFirstName| == 21;
    assert |TooLongFirstName| == 36;
  }

  lemma LastNameRowsBreakOneRule()
    ensures BreaksOneRule(NegativeMatrix[3]) && BreaksOneRule(NegativeMatrix[4]) && BreaksOneRule(NegativeMatrix[5])
  {
    TooLongLastNameMatches();
    AgainstPatternLastNameFails();
    assert |AgainstPatternLastName| == 19;
    assert |TooLongLastName| == 35;
  }

  lemma AddressAndCityRowsBreakOneRule()
    ensures BreaksOneRule(NegativeMatrix[6]) && BreaksOneRule(NegativeMatrix[7])
    ensures BreaksOneRule(NegativeMatrix[8]) && BreaksOneRule(NegativeMatrix[9])
  {
    assert |TooLongAddress| == 260;
    assert |TooLongCity| == 87;
  }

  /** The 25-digit telephone is all digits. */
  lemma TooLongTelephoneDigits()
    ensures AllDigits(TooLongTelephone)
  {
    assert forall i :: 0 <= i < |TooLongTelephone| ==> '0' <= TooLongTelephone[i] <= '9';
  }

  lemma TelephoneRowsBreakOneRule()
    ensures BreaksOneRule(NegativeMatrix[10]) && BreaksOneRule(NegativeMatrix[11]) && BreaksOneRule(NegativeMatrix[12])
  {
    TooLongTelephoneDigits();
    assert AgainstPatternTelephone[10] == '*';
  }

  lemma NegativeMatrixBreaksOneRule(i: nat)
    requires i < |NegativeMatrix|
    ensures BreaksOneRule(NegativeMatrix[i])
  {
    if i < 3 {
      FirstNameRowsBreakOneRule();
      assert i == 0 || i == 1 || i == 2;
    } else if i < 6 {
      LastNameRowsBreakOneRule();
      assert i == 3 || i == 4 || i == 5;
    } else if i < 10 {
      AddressAndCityRowsBreakOneRule();
      assert i == 6 || i == 7 || i == 8 || i == 9;
    } else {
      TelephoneRowsBreakOneRule();
      assert i == 10 || i == 11 || i == 12;
    }
  }

  /**
   * A case differs from its baseline under exactly one key, the mutated
   * field's wire key; when the baseline holds a valid value there, the new
   * value is a different one.
   */
  lemma NegativeCaseChangesOneKey(baseline: map<string, Value>, i: nat)
    requires i < |NegativeMatrix|
    ensures var m, c := NegativeMatrix[i], CaseOf(baseline, NegativeMatrix[i]);
      && c.data.Keys == baseline.Keys + {WireKey(m.field)}
      && (forall key :: key in baseline && key != WireKey(m.field) ==> c.data[key] == baseline[key])
      && (forall s :: Get(baseline, WireKey(m.field)) == Str(s) && ValidateField(m.field, s) == Normal ==>
            c.data[WireKey(m.field)] != baseline[WireKey(m.field)])
  {
    NegativeMatrixBreaksOneRule(i);
  }

  /** Every field of the invalid owner is refused by its setter. */
  lemma InvalidDataRejectedField(f: StringField)
    ensures WireKey(f) in GetOwnerTestInvalidData()
    ensures GetOwnerTestInvalidData()[WireKey(f)].Str?
    ensures ValidateField(f, GetOwnerTestInvalidData()[WireKey(f)].s).Threw?
  {
    AgainstPatternFirstNameFails();
  }

  lemma NegativeIdRejected()
    ensures ValidateId(OwnerNegativeId) == Threw(IllegalArgument(NegativeId))
  {
  }
}
