/**
 * `model.Owner`: the wire keys of an owner, the validation rule of each
 * string field, and the `Owner` object whose setters enforce those rules.
 */
module OwnerModel {
  import opened Values
  import opened NamePatterns
  import opened PetModel

  const FieldFirstName := "firstName"
  const FieldLastName := "lastName"
  const FieldAddress := "address"
  const FieldCity := "city"
  const FieldTelephone := "telephone"
  const FieldId := "id"
  const FieldPets := "pets"

  /** The five validated string fields of an owner. */
  datatype StringField = FirstName | LastName | Address | City | Telephone

  /** The JSON property of each string field. */
  function WireKey(f: StringField): string
  {
    match f
    case FirstName => FieldFirstName
    case LastName => FieldLastName
    case Address => FieldAddress
    case City => FieldCity
    case Telephone => FieldTelephone
  }

  /** The declared rule of each field: length 1 to `MaxLength(f)` ... */
  function MaxLength(f: StringField): nat
  {
    match f
    case FirstName => 30
    case LastName => 30
    case Address => 255
    case City => 80
    case Telephone => 20
  }

  /** ... and, for names and the telephone, membership in the pattern's language. */
  ghost predicate InPatternLanguage(f: StringField, s: string)
  {
    match f
    case FirstName => FirstNameLanguage(s)
    case LastName => LastNameLanguage(s)
    case Telephone => AllDigits(s)
    case Address => true
    case City => true
  }

  /** The pattern check a setter runs (none for address and city). */
  predicate MatchesPattern(f: StringField, s: string)
  {
    match f
    case FirstName => MatchesFirstName(s)
    case LastName => MatchesLastName(s)
    case Telephone => AllDigits(s)
    case Address => true
    case City => true
  }

  lemma MatchesPatternCorrect(f: StringField, s: string)
    ensures MatchesPattern(f, s) <==> InPatternLanguage(f, s)
  {
    match f
    case FirstName => FirstNamePatternCorrect(s);
    case LastName => LastNamePatternCorrect(s);
    case _ =>
  }

  /**
   * The checks of the validating setter of field `f`, as each setter writes
   * them. A value is accepted exactly when it obeys the field's rule; the
   * length is checked before the pattern.
   */
  function ValidateField(f: StringField, s: string): (r: Outcome)
    ensures r == Normal <==> 1 <= |s| <= MaxLength(f) && InPatternLanguage(f, s)
    ensures r != Normal ==>
      r == Threw(IllegalArgument(if 1 <= |s| <= MaxLength(f) then PatternMismatch else LengthOutOfRange))
  {
    MatchesPatternCorrect(f, s);
    var tooShortOrLong := Threw(IllegalArgument(LengthOutOfRange));
    var noMatch := Threw(IllegalArgument(PatternMismatch));
    match f
    case FirstName =>
      if |s| == 0 || |s| > 30 then tooShortOrLong
      else if !MatchesFirstName(s) then noMatch
      else Normal
    case LastName =>
      if |s| == 0 || |s| > 30 then tooShortOrLong
      else if !MatchesLastName(s) then noMatch
      else Normal
    case Address =>
      if |s| != 0 && |s| <= 255 then Normal else tooShortOrLong
    case City =>
      if |s| != 0 && |s| <= 80 then Normal else tooShortOrLong
    case Telephone =>
      if |s| == 0 || |s| > 20 then tooShortOrLong
      else if !AllDigits(s) then noMatch
      else Normal
  }

  /** The check of `setId`. */
  function ValidateId(id: Int32): (r: Outcome)
    ensures r == Normal <==> id >= 0
    ensures r != Normal ==> r == Threw(IllegalArgument(NegativeId))
  {
    if id < 0 then Threw(IllegalArgument(NegativeId)) else Normal
  }

  /** The scalar fields of an `Owner` (all but `pets`); `None` is `null`. */
  datatype OwnerState = OwnerState(
    firstName: Option<string>,
    lastName: Option<string>,
    address: Option<string>,
    city: Option<string>,
    telephone: Option<string>,
    id: Int32)
  {
    function Field(f: StringField): Option<string>
    {
      match f
      case FirstName => firstName
      case LastName => lastName
      case Address => address
      case City => city
      case Telephone => telephone
    }

    function WithField(f: StringField, s: string): OwnerState
    {
      match f
      case FirstName => this.(firstName := Some(s))
      case LastName => this.(lastName := Some(s))
      case Address => this.(address := Some(s))
      case City => this.(city := Some(s))
      case Telephone => this.(telephone := Some(s))
    }
  }

  /** A freshly constructed `Owner`: every reference `null`, `id` 0. */
  const BlankOwner := OwnerState(None, None, None, None, None, 0)

  class Owner {
    var firstName: Option<string>
    var lastName: Option<string>
    var address: Option<string>
    var city: Option<string>
    var telephone: Option<string>
    var id: Int32
    var pets: Option<seq<Pet>>

    /** What the six scalar getters return. */
    function State(): OwnerState
      reads this
    {
      OwnerState(firstName, lastName, address, city, telephone, id)
    }

    constructor ()
      ensures State() == BlankOwner && pets == None
    {
      firstName, lastName, address, city, telephone := None, None, None, None, None;
      id := 0;
      pets := None;
    }

    method SetFirstName(firstName: string) returns (outcome: Outcome)
      modifies this`firstName
      ensures outcome == ValidateField(FirstName, firstName)
      ensures State() == if outcome == Normal then old(State()).WithField(FirstName, firstName) else old(State())
    {
      if |firstName| == 0 || |firstName| > 30 {
        return Threw(IllegalArgument(LengthOutOfRange));
      }
      if !MatchesFirstName(firstName) {
        return Threw(IllegalArgument(PatternMismatch));
      }
      this.firstName := Some(firstName);
      outcome := Normal;
    }

    method SetFirstNameNoValidation(firstName: string)
      modifies this`firstName
      ensures State() == old(State()).WithField(FirstName, firstName)
    {
      this.firstName := Some(firstName);
    }

    method SetLastName(lastName: string) returns (outcome: Outcome)
      modifies this`lastName
      ensures outcome == ValidateField(LastName, lastName)
      ensures State() == if outcome == Normal then old(State()).WithField(LastName, lastName) else old(State())
    {
      if |lastName| == 0 || |lastName| > 30 {
        return Threw(IllegalArgument(LengthOutOfRange));
      }
      if !MatchesLastName(lastName) {
        return Threw(IllegalArgument(PatternMismatch));
      }
      this.lastName := Some(lastName);
      outcome := Normal;
    }

    method SetLastNameNoValidation(lastName: string)
      modifies this`lastName
      ensures State() == old(State()).WithField(LastName, lastName)
    {
      this.lastName := Some(lastName);
    }

    method SetAddress(address: string) returns (outcome: Outcome)
      modifies this`address
      ensures outcome == ValidateField(Address, address)
      ensures State() == if outcome == Normal then old(State()).WithField(Address, address) else old(State())
    {
      if |address| != 0 && |address| <= 255 {
        this.address := Some(address);
        outcome := Normal;
      } else {
        outcome := Threw(IllegalArgument(LengthOutOfRange));
      }
    }

    method SetAddressNoValidation(address: string)
      modifies this`address
      ensures State() == old(State()).WithField(Address, address)
    {
      this.address := Some(address);
    }

    method SetCity(city: string) returns (outcome: Outcome)
      modifies this`city
      ensures outcome == ValidateField(City, city)
      ensures State() == if outcome == Normal then old(State()).WithField(City, city) else old(State())
    {
      if |city| != 0 && |city| <= 80 {
        this.city := Some(city);
        outcome := Normal;
      } else {
        outcome := Threw(IllegalArgument(LengthOutOfRange));
      }
    }

    method SetCityNoValidation(city: string)
      modifies this`city
      ensures State() == old(State()).WithField(City, city)
    {
      this.city := Some(city);
    }

    method SetTelephone(telephone: string) returns (outcome: Outcome)
      modifies this`telephone
      ensures outcome == ValidateField(Telephone, telephone)
      ensures State() == if outcome == Normal then old(State()).WithField(Telephone, telephone) else old(State())
    {
      if |telephone| == 0 || |telephone| > 20 {
        return Threw(IllegalArgument(LengthOutOfRange));
      }
      if !AllDigits(telephone) {
        return Threw(IllegalArgument(PatternMismatch));
      }
      this.telephone := Some(telephone);
      outcome := Normal;
    }

    method SetTelephoneNoValidation(telephone: string)
      modifies this`telephone
      ensures State() == old(State()).WithField(Telephone, telephone)
    {
      this.telephone := Some(telephone);
    }

    /** Accepts any id from 0 up; a negative id is refused and the id is kept. */
    method SetId(id: Int32) returns (outcome: Outcome)
      modifies this`id
      ensures outcome == Normal <==> id >= 0
      ensures outcome == ValidateId(id)
      ensures State() == if outcome == Normal then old(State()).(id := id) else old(State())
    {
      if id < 0 {
        return Threw(IllegalArgument(NegativeId));
      }
      this.id := id;
      outcome := Normal;
    }

    method SetIdNoValidation(id: Int32)
      modifies this`id
      ensures State() == old(State()).(id := id)
    {
      this.id := id;
    }

    method SetPets(pets: Option<seq<Pet>>)
      modifies this`pets
      ensures this.pets == pets
    {
      this.pets := pets;
    }
  }
}
