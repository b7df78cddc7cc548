/**
 * `check.OwnerChecker`: compares a key/value snapshot of an owner (the API's
 * JSON body or the `owners` row) with the expected data. Three routines
 * record every mismatch in a `SoftAssertions` accumulator and carry on; the
 * fourth, `CheckOwnerData`, throws at the first mismatch.
 *
 * A snapshot's `keySet()` is iterated in an order the map decides; each
 * routine takes that order as `order`, a sequence listing every key once.
 */
module OwnerChecker {
  import opened Values
  import opened DatabaseConstants
  import opened OwnerModel
  import opened Soft

  /** Keys that the key-by-key comparison of a read response skips. */
  const ReadIgnoredKeys: set<string> := {FieldPets}

  const PreparingDataMessage := "Problem preparing data, please check database and test"
  const UnexpectedColumnMessage := "Unexpected database table column "

  /** `order` lists every key of `m` exactly once. */
  predicate KeyOrder(order: seq<string>, m: map<string, Value>)
  {
    && (forall i, j :: 0 <= i < j < |order| ==> order[i] != order[j])
    && (forall k :: k in order ==> k in m)
    && (forall k :: k in m ==> k in order)
  }

  /** The failures recorded for each key of `order`, one key after the other. */
  function Collect<T>(order: seq<string>, f: string -> seq<T>): seq<T>
    decreases |order|
  {
    if order == [] then []
    else Collect(order[..|order| - 1], f) + f(order[|order| - 1])
  }

  // ---------------------------------------------------------------------
  // assertOwnerData(Map, Map, SoftAssertions)

  /** What the loop body records for one key of the actual data. */
  function KeyFailures(actual: map<string, Value>, expected: map<string, Value>, key: string): seq<Failure>
  {
    if key in ReadIgnoredKeys then []
    else
      var actualValue, expectedValue := Get(actual, key), Get(expected, key);
      (if expectedValue == Null then [UnexpectedKey(key, actualValue)] else [])
      + EqualityFailures(actualValue, expectedValue)
  }

  function KeyFailuresOf(actual: map<string, Value>, expected: map<string, Value>): string -> seq<Failure>
  {
    key => KeyFailures(actual, expected, key)
  }

  /** Everything the key loop records, in iteration order. */
  function WireFailures(actual: map<string, Value>, expected: map<string, Value>, order: seq<string>): seq<Failure>
  {
    Collect(order, KeyFailuresOf(actual, expected))
  }

  /**
   * The check of `pets` after the loop: the value is cast to a list (a
   * non-list throws `ClassCastException`, a missing one `NullPointerException`
   * at `isEmpty()`), and a non-empty list records one failure.
   */
  function PetsCheck(actual: map<string, Value>): (r: (seq<Failure>, Outcome))
    ensures r.1 == Normal <==> Get(actual, FieldPets).List?
    ensures r.0 != [] <==> Get(actual, FieldPets).List? && |Get(actual, FieldPets).items| > 0
    ensures r.0 == [] || r.0 == [PetsNotEmpty]
  {
    match Get(actual, FieldPets)
    case Null => ([], Threw(NullPointer))
    case List(items) => (if |items| == 0 then [] else [PetsNotEmpty], Normal)
    case _ => ([], Threw(ClassCast))
  }

  method AssertOwnerDataMap(actualData: map<string, Value>, order: seq<string>,
                            expectedData: map<string, Value>, softly: SoftAssertions)
    returns (outcome: Outcome)
    requires KeyOrder(order, actualData)
    modifies softly
    ensures softly.errors == old(softly.errors) + WireFailures(actualData, expectedData, order) + PetsCheck(actualData).0
    ensures outcome == PetsCheck(actualData).1
  {
    for i := 0 to |order|
      invariant softly.errors == old(softly.errors) + WireFailures(actualData, expectedData, order[..i])
    {
      var keyName := order[i];
      assert order[..i + 1][..i] == order[..i];
      if keyName !in ReadIgnoredKeys {
        var actualValue := Get(actualData, keyName);
        var expectedValue := Get(expectedData, keyName);
        if expectedValue == Null {
          softly.Fail(UnexpectedKey(keyName, actualValue));
        }
        softly.AssertEqual(actualValue, expectedValue);
      }
    }
    assert order[..|order|] == order;
    match Get(actualData, FieldPets)
    case Null =>
      return Threw(NullPointer);
    case List(pets) =>
      if |pets| != 0 {
        softly.Fail(PetsNotEmpty);
      }
      return Normal;
    case _ =>
      return Threw(ClassCast);
  }

  // ---------------------------------------------------------------------
  // assertOwnerData(Map, Owner, SoftAssertions)

  /** The six comparisons, in the order the source makes them; `pets` and other keys are not read. */
  function OwnerFailures(actual: map<string, Value>, expected: OwnerState): (r: seq<Failure>)
    ensures |r| <= 6
    ensures r == [] <==>
      && Get(actual, FieldFirstName) == StrOrNull(expected.firstName)
      && Get(actual, FieldLastName) == StrOrNull(expected.lastName)
      && Get(actual, FieldAddress) == StrOrNull(expected.address)
      && Get(actual, FieldCity) == StrOrNull(expected.city)
      && Get(actual, FieldTelephone) == StrOrNull(expected.telephone)
      && Get(actual, FieldId) == Int(expected.id)
  {
    EqualityFailures(Get(actual, FieldAddress), StrOrNull(expected.address))
    + EqualityFailures(Get(actual, FieldCity), StrOrNull(expected.city))
    + EqualityFailures(Get(actual, FieldId), Int(expected.id))
    + EqualityFailures(Get(actual, FieldTelephone), StrOrNull(expected.telephone))
    + EqualityFailures(Get(actual, FieldLastName), StrOrNull(expected.lastName))
    + EqualityFailures(Get(actual, FieldFirstName), StrOrNull(expected.firstName))
  }

  method AssertOwnerDataObject(actualData: map<string, Value>, expectedData: Owner, softly: SoftAssertions)
    modifies softly
    ensures softly.errors == old(softly.errors) + OwnerFailures(actualData, expectedData.State())
  {
    softly.AssertEqual(Get(actualData, FieldAddress), StrOrNull(expectedData.address));
    softly.AssertEqual(Get(actualData, FieldCity), StrOrNull(expectedData.city));
    softly.AssertEqual(Get(actualData, FieldId), Int(expectedData.id));
    softly.AssertEqual(Get(actualData, FieldTelephone), StrOrNull(expectedData.telephone));
    softly.AssertEqual(Get(actualData, FieldLastName), StrOrNull(expectedData.lastName));
    softly.AssertEqual(Get(actualData, FieldFirstName), StrOrNull(expectedData.firstName));
  }

  // ---------------------------------------------------------------------
  // assertOwnerDbData and checkOwnerData

  /** The `switch` on a column name: the wire key its value is compared with. */
  function WireKeyOf(column: string): (key: Option<string>)
    ensures key.Some? <==> column in {FirstNameColumn, LastNameColumn, AddressColumn, CityColumn, TelephoneColumn, IdColumn}
    ensures key.Some? ==> key.value in {FieldFirstName, FieldLastName, FieldAddress, FieldCity, FieldTelephone, FieldId}
  {
    if column == FirstNameColumn then Some(FieldFirstName)
    else if column == LastNameColumn then Some(FieldLastName)
    else if column == AddressColumn then Some(FieldAddress)
    else if column == CityColumn then Some(FieldCity)
    else if column == TelephoneColumn then Some(FieldTelephone)
    else if column == IdColumn then Some(FieldId)
    else None
  }

  /** What `assertOwnerDbData` records for one column. */
  function ColumnFailures(actual: map<string, Value>, expected: map<string, Value>, column: string): seq<Failure>
  {
    match WireKeyOf(column)
    case None => [UnexpectedColumn(column)]
    case Some(key) => EqualityFailures(Get(actual, column), Get(expected, key))
  }

  function ColumnFailuresOf(actual: map<string, Value>, expected: map<string, Value>): string -> seq<Failure>
  {
    column => ColumnFailures(actual, expected, column)
  }

  function DbFailures(actual: map<string, Value>, expected: map<string, Value>, order: seq<string>): seq<Failure>
  {
    Collect(order, ColumnFailuresOf(actual, expected))
  }

  method AssertOwnerDbData(actualDatabaseData: map<string, Value>, order: seq<string>,
                           expectedData: map<string, Value>, softly: SoftAssertions)
    requires KeyOrder(order, actualDatabaseData)
    modifies softly
    ensures softly.errors == old(softly.errors) + DbFailures(actualDatabaseData, expectedData, order)
  {
    for i := 0 to |order|
      invariant softly.errors == old(softly.errors) + DbFailures(actualDatabaseData, expectedData, order[..i])
    {
      var columnName := order[i];
      assert order[..i + 1][..i] == order[..i];
      match WireKeyOf(columnName)
      case Some(key) =>
        softly.AssertEqual(Get(actualDatabaseData, columnName), Get(expectedData, key));
      case None =>
        softly.Fail(UnexpectedColumn(columnName));
    }
    assert order[..|order|] == order;
  }

  /**
   * What `checkOwnerData` does with one column: an unknown column throws, a
   * `null` value throws at `.equals`, and a value unequal to the expected one
   * under the column's wire key throws.
   */
  function ColumnCheck(actual: map<string, Value>, expected: map<string, Value>, column: string): (r: Outcome)
    ensures r == Normal ==> ColumnFailures(actual, expected, column) == []
    ensures r == Threw(NullPointer) <==> WireKeyOf(column).Some? && Get(actual, column) == Null
    ensures r == Normal || r == Threw(NullPointer) || (r.Threw? && r.exception.IllegalState?)
  {
    match WireKeyOf(column)
    case None => Threw(IllegalState(UnexpectedColumnMessage + column))
    case Some(key) =>
      if Get(actual, column) == Null then Threw(NullPointer)
      else if Get(actual, column) != Get(expected, key) then Threw(IllegalState(PreparingDataMessage))
      else Normal
  }

  /** Every column is known, non-null and equal to the expected value under its wire key. */
  predicate DbRowMatches(actual: map<string, Value>, expected: map<string, Value>)
  {
    forall column :: column in actual ==>
      && WireKeyOf(column).Some?
      && actual[column] != Null
      && actual[column] == Get(expected, WireKeyOf(column).value)
  }

  /**
   * Returns normally exactly when the row matches; otherwise throws what the
   * first offending column in iteration order throws.
   */
  method CheckOwnerData(actualData: map<string, Value>, order: seq<string>, expectedData: map<string, Value>)
    returns (outcome: Outcome)
    requires KeyOrder(order, actualData)
    ensures outcome == Normal <==> DbRowMatches(actualData, expectedData)
    ensures outcome != Normal ==>
      exists i :: 0 <= i < |order|
        && outcome == ColumnCheck(actualData, expectedData, order[i])
        && forall j :: 0 <= j < i ==> ColumnCheck(actualData, expectedData, order[j]) == Normal
  {
    for i := 0 to |order|
      invariant forall j :: 0 <= j < i ==> ColumnCheck(actualData, expectedData, order[j]) == Normal
    {
      var columnName := order[i];
      match WireKeyOf(columnName)
      case None =>
        return Threw(IllegalState(UnexpectedColumnMessage + columnName));
      case Some(key) =>
        var actualValue := Get(actualData, columnName);
        if actualValue == Null {
          return Threw(NullPointer);
        }
        if actualValue != Get(expectedData, key) {
          return Threw(IllegalState(PreparingDataMessage));
        }
    }
    forall column | column in actualData
      ensures ColumnCheck(actualData, expectedData, column) == Normal
    {
      var j :| 0 <= j < |order| && order[j] == column;
    }
    return Normal;
  }

  // ---------------------------------------------------------------------
  // Properties of the iteration

  lemma {:induction false} CollectAppend<T>(o1: seq<string>, o2: seq<string>, f: string -> seq<T>)
    ensures Collect(o1 + o2, f) == Collect(o1, f) + Collect(o2, f)
    decreases |o2|
  {
    if o2 == [] {
      assert o1 + o2 == o1;
    } else {
      var last := o2[|o2| - 1];
      assert (o1 + o2)[..|o1 + o2| - 1] == o1 + o2[..|o2| - 1];
      CollectAppend(o1, o2[..|o2| - 1], f);
    }
  }

  lemma CollectOne<T>(key: string, f: string -> seq<T>)
    ensures Collect([key], f) == f(key)
  {
    assert [key][..0] == [];
  }

  /** Reordering the keys permutes what is recorded, and nothing more. */
  lemma {:induction false} CollectPermutation<T>(o1: seq<string>, o2: seq<string>, f: string -> seq<T>)
    requires multiset(o1) == multiset(o2)
    ensures multiset(Collect(o1, f)) == multiset(Collect(o2, f))
    decreases |o1|
  {
    if o1 == [] {
      assert |o2| == |multiset(o2)| == 0;
    } else {
      var key := o1[0];
      assert key in multiset(o2);
      var i :| 0 <= i < |o2| && o2[i] == key;
      var rest1, rest2 := o1[1..], o2[..i] + o2[i + 1..];
      assert o1 == [key] + rest1;
      assert o2 == o2[..i] + [key] + o2[i + 1..];
      assert multiset(o1) == multiset([key]) + multiset(rest1);
      assert multiset(o2) == multiset(o2[..i]) + multiset([key]) + multiset(o2[i + 1..]);
      assert multiset(rest2) == multiset(o2[..i]) + multiset(o2[i + 1..]);
      assert multiset(rest1) == multiset(o1) - multiset([key]);
      assert multiset(rest2) == multiset(o2) - multiset([key]);
      CollectPermutation(rest1, rest2, f);
      CollectAppend([key], rest1, f);
      CollectOne(key, f);
      CollectAppend(o2[..i] + [key], o2[i + 1..], f);
      CollectAppend(o2[..i], [key], f);
      CollectAppend(o2[..i], o2[i + 1..], f);
    }
  }

  /** Nothing is recorded exactly when no key records anything. */
  lemma {:induction false} CollectEmpty<T>(order: seq<string>, f: string -> seq<T>)
    ensures Collect(order, f) == [] <==> forall key :: key in order ==> f(key) == []
    decreases |order|
  {
    if order != [] {
      var init := order[..|order| - 1];
      CollectEmpty(init, f);
      assert order == init + [order[|order| - 1]];
    }
  }

  /** A failure is recorded exactly when some key records it. */
  lemma {:induction false} CollectMember<T>(order: seq<string>, f: string -> seq<T>, x: T)
    ensures x in Collect(order, f) <==> exists key :: key in order && x in f(key)
    decreases |order|
  {
    if order != [] {
      var init := order[..|order| - 1];
      CollectMember(init, f, x);
      assert order == init + [order[|order| - 1]];
    }
  }

  lemma {:induction false} DistinctCount(order: seq<string>, key: string)
    requires forall i, j :: 0 <= i < j < |order| ==> order[i] != order[j]
    ensures multiset(order)[key] == if key in order then 1 else 0
    decreases |order|
  {
    if order != [] {
      var init := order[..|order| - 1];
      DistinctCount(init, key);
      assert order == init + [order[|order| - 1]];
    }
  }

  /** Any two iteration orders of one map hold the same keys. */
  lemma SameKeys(o1: seq<string>, o2: seq<string>, m: map<string, Value>)
    requires KeyOrder(o1, m) && KeyOrder(o2, m)
    ensures multiset(o1) == multiset(o2)
  {
    forall key ensures multiset(o1)[key] == multiset(o2)[key] {
      DistinctCount(o1, key);
      DistinctCount(o2, key);
    }
  }

  // ---------------------------------------------------------------------
  // Properties of assertOwnerData(Map, Map)

  /** Whatever order the map iterates its keys in, the same failures are recorded. */
  lemma WireFailuresIndependentOfOrder(actual: map<string, Value>, expected: map<string, Value>,
                                       o1: seq<string>, o2: seq<string>)
    requires KeyOrder(o1, actual) && KeyOrder(o2, actual)
    ensures multiset(WireFailures(actual, expected, o1)) == multiset(WireFailures(actual, expected, o2))
  {
    SameKeys(o1, o2, actual);
    CollectPermutation(o1, o2, KeyFailuresOf(actual, expected));
  }

  /**
   * The key loop records nothing exactly when every key of the actual data
   * but `pets` has a non-null expected value equal to its own.
   */
  lemma WireFailuresEmptyIff(actual: map<string, Value>, expected: map<string, Value>, order: seq<string>)
    requires KeyOrder(order, actual)
    ensures WireFailures(actual, expected, order) == [] <==>
      forall key :: key in actual && key != FieldPets ==>
        Get(expected, key) != Null && actual[key] == Get(expected, key)
  {
    var f := KeyFailuresOf(actual, expected);
    CollectEmpty(order, f);
    forall key | key in actual && key != FieldPets
      ensures f(key) == [] <==> Get(expected, key) != Null && actual[key] == Get(expected, key)
    {
    }
  }

  /**
   * "Unexpected key" is recorded for exactly the non-`pets` keys of the
   * actual data whose expected value is null or absent, with the actual
   * value.
   */
  lemma UnexpectedKeyRecorded(actual: map<string, Value>, expected: map<string, Value>, order: seq<string>,
                              key: string, v: Value)
    requires KeyOrder(order, actual)
    ensures UnexpectedKey(key, v) in WireFailures(actual, expected, order) <==>
      key in actual && key != FieldPets && Get(expected, key) == Null && v == actual[key]
  {
    var f := KeyFailuresOf(actual, expected);
    CollectMember(order, f, UnexpectedKey(key, v));
    if UnexpectedKey(key, v) in WireFailures(actual, expected, order) {
      var k :| k in order && UnexpectedKey(key, v) in f(k);
      assert k == key;
    }
  }

  /** Such a key with a non-null actual value also records a failed equality against null. */
  lemma UnexpectedKeyAlsoUnequal(actual: map<string, Value>, expected: map<string, Value>, order: seq<string>,
                                 key: string)
    requires KeyOrder(order, actual)
    requires key in actual && key != FieldPets && Get(expected, key) == Null && actual[key] != Null
    ensures NotEqual(actual[key], Null) in WireFailures(actual, expected, order)
  {
    var f := KeyFailuresOf(actual, expected);
    CollectMember(order, f, NotEqual(actual[key], Null));
    assert NotEqual(actual[key], Null) in f(key);
  }

  /** Keys of the expected data that the actual data lacks are never read. */
  lemma WireFailuresReadOnlyActualKeys(actual: map<string, Value>, e1: map<string, Value>, e2: map<string, Value>,
                                       order: seq<string>)
    requires KeyOrder(order, actual)
    requires forall key :: key in actual ==> Get(e1, key) == Get(e2, key)
    ensures WireFailures(actual, e1, order) == WireFailures(actual, e2, order)
  {
    CollectSameOnKeys(order, KeyFailuresOf(actual, e1), KeyFailuresOf(actual, e2));
  }

  lemma {:induction false} CollectSameOnKeys<T>(order: seq<string>, f: string -> seq<T>, g: string -> seq<T>)
    requires forall key :: key in order ==> f(key) == g(key)
    ensures Collect(order, f) == Collect(order, g)
    decreases |order|
  {
    if order != [] {
      CollectSameOnKeys(order[..|order| - 1], f, g);
    }
  }

  /** A snapshot with no null values and an empty `pets` list passes against itself. */
  lemma IdenticalSnapshotPasses(data: map<string, Value>, order: seq<string>)
    requires KeyOrder(order, data)
    requires forall key :: key in data ==> data[key] != Null
    requires Get(data, FieldPets) == List([])
    ensures WireFailures(data, data, order) == []
    ensures PetsCheck(data) == ([], Normal)
  {
    WireFailuresEmptyIff(data, data, order);
  }

  // ---------------------------------------------------------------------
  // Properties of assertOwnerDbData and checkOwnerData

  /** The switch knows exactly the six columns, each under the wire key of the same field. */
  lemma WireKeyOfColumns()
    ensures WireKeyOf(FirstNameColumn) == Some(FieldFirstName)
    ensures WireKeyOf(LastNameColumn) == Some(FieldLastName)
    ensures WireKeyOf(AddressColumn) == Some(FieldAddress)
    ensures WireKeyOf(CityColumn) == Some(FieldCity)
    ensures WireKeyOf(TelephoneColumn) == Some(FieldTelephone)
    ensures WireKeyOf(IdColumn) == Some(FieldId)
  {
  }

  /**
   * The soft database check records nothing exactly when every column is
   * known and equal to the expected value under its wire key.
   */
  lemma DbFailuresEmptyIff(actual: map<string, Value>, expected: map<string, Value>, order: seq<string>)
    requires KeyOrder(order, actual)
    ensures DbFailures(actual, expected, order) == [] <==>
      forall column :: column in actual ==>
        WireKeyOf(column).Some? && actual[column] == Get(expected, WireKeyOf(column).value)
  {
    var f := ColumnFailuresOf(actual, expected);
    CollectEmpty(order, f);
    forall column | column in actual
      ensures f(column) == [] <==>
        WireKeyOf(column).Some? && actual[column] == Get(expected, WireKeyOf(column).value)
    {
    }
  }

  /** "Unexpected database table column" is recorded for exactly the unknown columns. */
  lemma UnknownColumnRecorded(actual: map<string, Value>, expected: map<string, Value>, order: seq<string>,
                              column: string)
    requires KeyOrder(order, actual)
    ensures UnexpectedColumn(column) in DbFailures(actual, expected, order) <==>
      column in actual && WireKeyOf(column) == None
  {
    var f := ColumnFailuresOf(actual, expected);
    CollectMember(order, f, UnexpectedColumn(column));
    if UnexpectedColumn(column) in DbFailures(actual, expected, order) {
      var k :| k in order && UnexpectedColumn(column) in f(k);
      assert k == column;
    }
  }

  /** A row that passes the fail-fast check also passes the soft one. */
  lemma CheckPassImpliesNoDbFailures(actual: map<string, Value>, expected: map<string, Value>, order: seq<string>)
    requires KeyOrder(order, actual)
    requires DbRowMatches(actual, expected)
    ensures DbFailures(actual, expected, order) == []
  {
    DbFailuresEmptyIff(actual, expected, order);
  }

  /** Whatever order the row iterates its columns in, the soft check records the same failures. */
  lemma DbFailuresIndependentOfOrder(actual: map<string, Value>, expected: map<string, Value>,
                                     o1: seq<string>, o2: seq<string>)
    requires KeyOrder(o1, actual) && KeyOrder(o2, actual)
    ensures multiset(DbFailures(actual, expected, o1)) == multiset(DbFailures(actual, expected, o2))
  {
    SameKeys(o1, o2, actual);
    CollectPermutation(o1, o2, ColumnFailuresOf(actual, expected));
  }

  /**
   * The fail-fast check is not order-independent: with an unknown column
   * and a null known column, the exception thrown is that of whichever
   * comes first.
   */
  lemma CheckOwnerDataDependsOnOrder()
    ensures var row := map["zz" := Str(""), AddressColumn := Null];
      && KeyOrder(["zz", AddressColumn], row) && KeyOrder([AddressColumn, "zz"], row)
      && ColumnCheck(row, map[], "zz") == Threw(IllegalState(UnexpectedColumnMessage + "zz"))
      && ColumnCheck(row, map[], AddressColumn) == Threw(NullPointer)
  {
    var row := map["zz" := Str(""), AddressColumn := Null];
    assert "zz" != AddressColumn;
    assert forall k :: k in row ==> k in ["zz", AddressColumn];
    assert forall k :: k in row ==> k in [AddressColumn, "zz"];
  }

  /** The object check reads only the six scalar keys: `pets` and any other key are ignored. */
  lemma OwnerFailuresOnlySixKeys(a1: map<string, Value>, a2: map<string, Value>, expected: OwnerState)
    requires forall f :: Get(a1, WireKey(f)) == Get(a2, WireKey(f))
    requires Get(a1, FieldId) == Get(a2, FieldId)
    ensures OwnerFailures(a1, expected) == OwnerFailures(a2, expected)
  {
    assert Get(a1, WireKey(FirstName)) == Get(a2, WireKey(FirstName));
    assert Get(a1, WireKey(LastName)) == Get(a2, WireKey(LastName));
    assert Get(a1, WireKey(Address)) == Get(a2, WireKey(Address));
    assert Get(a1, WireKey(City)) == Get(a2, WireKey(City));
    assert Get(a1, WireKey(Telephone)) == Get(a2, WireKey(Telephone));
  }

  /**
   * The converse fails: a null column expected as null (or absent) passes
   * the soft check but makes the fail-fast one throw at `.equals`.
   */
  lemma NullColumnSplitsTheChecks()
    ensures DbFailures(map[AddressColumn := Null], map[], [AddressColumn]) == []
    ensures !DbRowMatches(map[AddressColumn := Null], map[])
  {
    CollectOne(AddressColumn, ColumnFailuresOf(map[AddressColumn := Null], map[]));
  }
}
