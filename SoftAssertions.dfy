/**
 * The part of AssertJ's `SoftAssertions` the checks use: an accumulator of
 * failures that `fail` and a failing `assertThat(actual).isEqualTo(expected)`
 * append to, without stopping the caller.
 */
module Soft {
  import opened Values

  /** One recorded failure, by the message that produced it. */
  datatype Failure =
    | NotEqual(actual: Value, expected: Value)   // isEqualTo did not hold
    | UnexpectedKey(key: string, actual: Value)  // "Unexpected key '<key>' : '<actual>'"
    | PetsNotEmpty                               // "Pets should be empty"
    | UnexpectedColumn(column: string)           // "Unexpected database table column: <column>"

  /** What `assertThat(actual).isEqualTo(expected)` records. */
  function EqualityFailures(actual: Value, expected: Value): seq<Failure>
  {
    if actual == expected then [] else [NotEqual(actual, expected)]
  }

  class SoftAssertions {
    var errors: seq<Failure>

    constructor ()
      ensures errors == []
    {
      errors := [];
    }

    method Fail(failure: Failure)
      modifies this
      ensures errors == old(errors) + [failure]
    {
      errors := errors + [failure];
    }

    method AssertEqual(actual: Value, expected: Value)
      modifies this
      ensures errors == old(errors) + EqualityFailures(actual, expected)
      ensures |errors| <= |old(errors)| + 1
    {
      if actual != expected {
        errors := errors + [NotEqual(actual, expected)];
      }
    }
  }
}
