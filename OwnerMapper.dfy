/**
 * `mapper.OwnerMapper`: builds an `Owner` from a snapshot map, keyed either
 * by the JSON properties or by the table columns, through the validating
 * setters. Each string key is read as `Optional.ofNullable((String) v)
 * .ifPresent(setter)`: `null` skips the setter, a non-string throws
 * `ClassCastException`. The id is read as `(int) v`, which unboxes before
 * the `Optional` is built: `null` throws `NullPointerException`. The first
 * exception ends the mapping.
 */
module OwnerMapper {
  import opened Values
  import opened DatabaseConstants
  import opened OwnerModel
  import opened OwnerChecker

  /** Which names the mapping reads: `fromKeyValues` or `fromDbKeyValues`. */
  datatype KeySet = WireKeys | ColumnKeys

  function KeyOf(keys: KeySet, f: StringField): string
  {
    match keys
    case WireKeys => WireKey(f)
    case ColumnKeys =>
      match f
      case FirstName => FirstNameColumn
      case LastName => LastNameColumn
      case Address => AddressColumn
      case City => CityColumn
      case Telephone => TelephoneColumn
  }

  function IdKey(keys: KeySet): string
  {
    match keys
    case WireKeys => FieldId
    case ColumnKeys => IdColumn
  }

  /** One string step: the owner's state after it, or what it threw. */
  function StringStep(state: OwnerState, f: StringField, v: Value): (r: Result<OwnerState, Exception>)
    ensures r.Ok? <==> v.Null? || (v.Str? && ValidateField(f, v.s) == Normal)
    ensures r.Ok? ==> r.value.id == state.id && forall g :: g != f ==> r.value.Field(g) == state.Field(g)
    ensures r.Err? ==> r.error == ClassCast || r.error.IllegalArgument?
  {
    match v
    case Null => Ok(state)
    case Str(s) =>
      var outcome := ValidateField(f, s);
      if outcome.Threw? then Err(outcome.exception) else Ok(state.WithField(f, s))
    case _ => Err(ClassCast)
  }

  /** The id step. */
  function IdStep(state: OwnerState, v: Value): (r: Result<OwnerState, Exception>)
    ensures r.Ok? <==> v.Int? && v.i >= 0
    ensures r.Ok? ==> Int(r.value.id) == v && forall f :: r.value.Field(f) == state.Field(f)
    ensures v.Null? ==> r == Err(NullPointer)
  {
    match v
    case Null => Err(NullPointer)
    case Int(i) =>
      var outcome := ValidateId(i);
      if outcome.Threw? then Err(outcome.exception) else Ok(state.(id := i))
    case _ => Err(ClassCast)
  }

  /** The whole mapping on values: the built owner's state, or the exception that ended it. */
  function MapOwner(data: map<string, Value>, keys: KeySet): (r: Result<OwnerState, Exception>)
    ensures r.Ok? ==> r.value.id >= 0 && Int(r.value.id) == Get(data, IdKey(keys))
    ensures r.Err? ==> r.error == NullPointer || r.error == ClassCast || r.error.IllegalArgument?
  {
    var s1 :- StringStep(BlankOwner, FirstName, Get(data, KeyOf(keys, FirstName)));
    var s2 :- StringStep(s1, LastName, Get(data, KeyOf(keys, LastName)));
    var s3 :- StringStep(s2, Address, Get(data, KeyOf(keys, Address)));
    var s4 :- StringStep(s3, City, Get(data, KeyOf(keys, City)));
    var s5 :- StringStep(s4, Telephone, Get(data, KeyOf(keys, Telephone)));
    IdStep(s5, Get(data, IdKey(keys)))
  }

  /** A value the string step lets through: `null`, or a string its setter accepts. */
  predicate Acceptable(f: StringField, v: Value)
  {
    v.Null? || (v.Str? && ValidateField(f, v.s) == Normal)
  }

  predicate AcceptableId(v: Value)
  {
    v.Int? && v.i >= 0
  }

  // ---------------------------------------------------------------------
  // The mapping methods

  /** Calls the validating setter of field `f`. */
  method SetField(owner: Owner, f: StringField, s: string) returns (outcome: Outcome)
    modifies owner
    ensures outcome == ValidateField(f, s)
    ensures owner.State() == if outcome == Normal then old(owner.State()).WithField(f, s) else old(owner.State())
    ensures owner.pets == old(owner.pets)
  {
    match f
    case FirstName => outcome := owner.SetFirstName(s);
    case LastName => outcome := owner.SetLastName(s);
    case Address => outcome := owner.SetAddress(s);
    case City => outcome := owner.SetCity(s);
    case Telephone => outcome := owner.SetTelephone(s);
  }

  /** `Optional.ofNullable((String) v).ifPresent(setter)` */
  method ApplyString(owner: Owner, f: StringField, v: Value) returns (outcome: Outcome)
    modifies owner
    ensures StringStep(old(owner.State()), f, v).Ok? <==> outcome == Normal
    ensures outcome == Normal ==> owner.State() == StringStep(old(owner.State()), f, v).value
    ensures outcome != Normal ==> outcome == Threw(StringStep(old(owner.State()), f, v).error)
    ensures owner.pets == old(owner.pets)
  {
    match v
    case Null => outcome := Normal;
    case Str(s) => outcome := SetField(owner, f, s);
    case _ => outcome := Threw(ClassCast);
  }

  /** The body shared by both mappings. */
  method FromKeys(data: map<string, Value>, keys: KeySet) returns (r: Result<Owner, Exception>)
    ensures r.Ok? <==> MapOwner(data, keys).Ok?
    ensures r.Err? ==> r.error == MapOwner(data, keys).error
    ensures r.Ok? ==> fresh(r.value) && r.value.State() == MapOwner(data, keys).value && r.value.pets == None
  {
    var owner := new Owner();
    var outcome := ApplyString(owner, FirstName, Get(data, KeyOf(keys, FirstName)));
    if outcome.Threw? {
      return Err(outcome.exception);
    }
    outcome := ApplyString(owner, LastName, Get(data, KeyOf(keys, LastName)));
    if outcome.Threw? {
      return Err(outcome.exception);
    }
    outcome := ApplyString(owner, Address, Get(data, KeyOf(keys, Address)));
    if outcome.Threw? {
      return Err(outcome.exception);
    }
    outcome := ApplyString(owner, City, Get(data, KeyOf(keys, City)));
    if outcome.Threw? {
      return Err(outcome.exception);
    }
    outcome := ApplyString(owner, Telephone, Get(data, KeyOf(keys, Telephone)));
    if outcome.Threw? {
      return Err(outcome.exception);
    }
    match Get(data, IdKey(keys))
    case Null =>
      return Err(NullPointer);
    case Int(i) =>
      outcome := owner.SetId(i);
      if outcome.Threw? {
        return Err(outcome.exception);
      }
      return Ok(owner);
    case _ =>
      return Err(ClassCast);
  }

  /** `fromKeyValues`, reading the JSON property names (the `pets` entry is not part of this model). */
  method FromKeyValues(data: map<string, Value>) returns (r: Result<Owner, Exception>)
    ensures r.Ok? <==> MapOwner(data, WireKeys).Ok?
    ensures r.Err? ==> r.error == MapOwner(data, WireKeys).error
    ensures r.Ok? ==> fresh(r.value) && r.value.State() == MapOwner(data, WireKeys).value
  {
    r := FromKeys(data, WireKeys);
  }

  /** `fromDbKeyValues`, reading the column names; it never sets `pets`. */
  method FromDbKeyValues(data: map<string, Value>) returns (r: Result<Owner, Exception>)
    ensures r.Ok? <==> MapOwner(data, ColumnKeys).Ok?
    ensures r.Err? ==> r.error == MapOwner(data, ColumnKeys).error
    ensures r.Ok? ==> fresh(r.value) && r.value.State() == MapOwner(data, ColumnKeys).value && r.value.pets == None
  {
    r := FromKeys(data, ColumnKeys);
  }

  // ---------------------------------------------------------------------
  // Properties of the mapping

  /** The mapping succeeds exactly when every string key holds `null` or an accepted string and the id key a non-negative int. */
  lemma MapOwnerSucceedsIff(data: map<string, Value>, keys: KeySet)
    ensures MapOwner(data, keys).Ok? <==>
      (forall f :: Acceptable(f, Get(data, KeyOf(keys, f)))) && AcceptableId(Get(data, IdKey(keys)))
  {
    if MapOwner(data, keys).Ok? {
      forall f ensures Acceptable(f, Get(data, KeyOf(keys, f))) {
        match f
        case FirstName =>
        case LastName =>
        case Address =>
        case City =>
        case Telephone =>
      }
    }
  }

  /**
   * A built owner's getters return what the map holds under the mapped
   * keys; in particular an absent string key leaves its field `null`.
   */
  lemma MapOwnerReadsBack(data: map<string, Value>, keys: KeySet)
    requires MapOwner(data, keys).Ok?
    ensures forall f :: StrOrNull(MapOwner(data, keys).value.Field(f)) == Get(data, KeyOf(keys, f))
    ensures Int(MapOwner(data, keys).value.id) == Get(data, IdKey(keys))
    ensures forall f :: KeyOf(keys, f) !in data ==> MapOwner(data, keys).value.Field(f).None?
  {
    var st := MapOwner(data, keys).value;
    forall f ensures StrOrNull(st.Field(f)) == Get(data, KeyOf(keys, f)) {
      match f
      case FirstName =>
      case LastName =>
      case Address =>
      case City =>
      case Telephone =>
    }
  }

  /** An id key that is absent or `null` makes the mapping fail. */
  lemma MissingIdFails(data: map<string, Value>, keys: KeySet)
    requires Get(data, IdKey(keys)) == Null
    ensures MapOwner(data, keys).Err?
    ensures (forall f :: Acceptable(f, Get(data, KeyOf(keys, f)))) ==> MapOwner(data, keys).error == NullPointer
  {
    if forall f :: Acceptable(f, Get(data, KeyOf(keys, f))) {
      assert Acceptable(FirstName, Get(data, KeyOf(keys, FirstName)));
      assert Acceptable(LastName, Get(data, KeyOf(keys, LastName)));
      assert Acceptable(Address, Get(data, KeyOf(keys, Address)));
      assert Acceptable(City, Get(data, KeyOf(keys, City)));
      assert Acceptable(Telephone, Get(data, KeyOf(keys, Telephone)));
    }
  }

  /**
   * A present string the setter refuses makes the mapping fail; when it is
   * the only offending value, the mapping throws the setter's exception.
   */
  lemma InvalidValuePropagates(data: map<string, Value>, keys: KeySet, f: StringField, s: string)
    requires Get(data, KeyOf(keys, f)) == Str(s) && ValidateField(f, s).Threw?
    ensures MapOwner(data, keys).Err?
    ensures (forall g :: g != f ==> Acceptable(g, Get(data, KeyOf(keys, g)))) ==>
      MapOwner(data, keys).error == ValidateField(f, s).exception
  {
    MapOwnerSucceedsIff(data, keys);
    assert !Acceptable(f, Get(data, KeyOf(keys, f)));
    if forall g :: g != f ==> Acceptable(g, Get(data, KeyOf(keys, g))) {
      match f
      case FirstName =>
      case LastName =>
        assert Acceptable(FirstName, Get(data, KeyOf(keys, FirstName)));
      case Address =>
        assert Acceptable(FirstName, Get(data, KeyOf(keys, FirstName)));
        assert Acceptable(LastName, Get(data, KeyOf(keys, LastName)));
      case City =>
        assert Acceptable(FirstName, Get(data, KeyOf(keys, FirstName)));
        assert Acceptable(LastName, Get(data, KeyOf(keys, LastName)));
        assert Acceptable(Address, Get(data, KeyOf(keys, Address)));
      case Telephone =>
        assert Acceptable(FirstName, Get(data, KeyOf(keys, FirstName)));
        assert Acceptable(LastName, Get(data, KeyOf(keys, LastName)));
        assert Acceptable(Address, Get(data, KeyOf(keys, Address)));
        assert Acceptable(City, Get(data, KeyOf(keys, City)));
    }
  }

  /** An owner state every setter would have accepted. */
  predicate ValidState(st: OwnerState)
  {
    && (forall f :: st.Field(f).Some? ==> ValidateField(f, st.Field(f).value) == Normal)
    && st.id >= 0
  }

  /** The snapshot of an owner under either key set (`null` fields as `null` values). */
  function KeyValuesOf(st: OwnerState, keys: KeySet): map<string, Value>
  {
    map[
      KeyOf(keys, FirstName) := StrOrNull(st.firstName),
      KeyOf(keys, LastName) := StrOrNull(st.lastName),
      KeyOf(keys, Address) := StrOrNull(st.address),
      KeyOf(keys, City) := StrOrNull(st.city),
      KeyOf(keys, Telephone) := StrOrNull(st.telephone),
      IdKey(keys) := Int(st.id)
    ]
  }

  /** The six names a mapping reads are pairwise distinct. */
  lemma KeysDistinct(keys: KeySet)
    ensures forall f, g :: f != g ==> KeyOf(keys, f) != KeyOf(keys, g)
    ensures forall f :: KeyOf(keys, f) != IdKey(keys)
  {
  }

  /** A string step on a field value a setter accepts (or `null`) stores it. */
  lemma StepStoresField(state: OwnerState, f: StringField, o: Option<string>)
    requires o.Some? ==> ValidateField(f, o.value) == Normal
    ensures StringStep(state, f, StrOrNull(o)) == Ok(if o.Some? then state.WithField(f, o.value) else state)
  {
  }

  /** Mapping the snapshot of a valid owner rebuilds that owner. */
  lemma MapOwnerRoundTrip(st: OwnerState, keys: KeySet)
    requires ValidState(st)
    ensures MapOwner(KeyValuesOf(st, keys), keys) == Ok(st)
  {
    var m := KeyValuesOf(st, keys);
    KeysDistinct(keys);
    forall f ensures Get(m, KeyOf(keys, f)) == StrOrNull(st.Field(f)) {
    }
    assert Get(m, IdKey(keys)) == Int(st.id);
    var s1 := st.(lastName := None, address := None, city := None, telephone := None, id := 0);
    StepStoresField(BlankOwner, FirstName, st.firstName);
    var s2 := s1.(lastName := st.lastName);
    StepStoresField(s1, LastName, st.lastName);
    var s3 := s2.(address := st.address);
    StepStoresField(s2, Address, st.address);
    var s4 := s3.(city := st.city);
    StepStoresField(s3, City, st.city);
    var s5 := s4.(telephone := st.telephone);
    StepStoresField(s4, Telephone, st.telephone);
  }

  /** Every owner the mapping builds is valid, and mapping its snapshot gives it back. */
  lemma MappedOwnerIsValid(data: map<string, Value>, keys: KeySet)
    requires MapOwner(data, keys).Ok?
    ensures ValidState(MapOwner(data, keys).value)
    ensures MapOwner(KeyValuesOf(MapOwner(data, keys).value, keys), keys) == MapOwner(data, keys)
  {
    var st := MapOwner(data, keys).value;
    MapOwnerSucceedsIff(data, keys);
    MapOwnerReadsBack(data, keys);
    forall f | st.Field(f).Some? ensures ValidateField(f, st.Field(f).value) == Normal {
      assert Acceptable(f, Get(data, KeyOf(keys, f)));
    }
    MapOwnerRoundTrip(st, keys);
  }

  /** Comparing a wire snapshot with the owner mapped from it records no failure. */
  lemma MappedOwnerPassesObjectCheck(data: map<string, Value>)
    requires MapOwner(data, WireKeys).Ok?
    ensures OwnerFailures(data, MapOwner(data, WireKeys).value) == []
  {
    MapOwnerReadsBack(data, WireKeys);
    var st := MapOwner(data, WireKeys).value;
    assert StrOrNull(st.Field(FirstName)) == Get(data, FieldFirstName);
    assert StrOrNull(st.Field(LastName)) == Get(data, FieldLastName);
    assert StrOrNull(st.Field(Address)) == Get(data, FieldAddress);
    assert StrOrNull(st.Field(City)) == Get(data, FieldCity);
    assert StrOrNull(st.Field(Telephone)) == Get(data, FieldTelephone);
  }
}
