/** `model.Visit`: one visit of a pet, with validated description and ids. */
module VisitModel {
  import opened Values

  class Visit {
    var date: Option<LocalDate>
    var description: Option<string>
    var id: Int32
    var petId: Int32

    /** Every setter keeps the id non-negative, starting from Java's default 0. */
    ghost predicate Valid()
      reads this
    {
      id >= 0
    }

    constructor ()
      ensures Valid()
      ensures date == None && description == None && id == 0 && petId == 0
    {
      date := None;
      description := None;
      id := 0;
      petId := 0;
    }

    method SetDate(date: Option<LocalDate>)
      modifies this`date
      ensures this.date == date
    {
      this.date := date;
    }

    /** Accepts a description of 1 to 255 characters; anything else is refused and the description is kept. */
    method SetDescription(description: string) returns (outcome: Outcome)
      modifies this`description
      ensures outcome == Normal <==> 1 <= |description| <= 255
      ensures outcome != Normal ==> outcome == Threw(IllegalArgument(LengthOutOfRange))
      ensures this.description == if outcome == Normal then Some(description) else old(this.description)
    {
      if |description| != 0 && |description| <= 255 {
        this.description := Some(description);
        outcome := Normal;
      } else {
        outcome := Threw(IllegalArgument(LengthOutOfRange));
      }
    }

    /** Accepts any id from 0 up; a negative id is refused and the id is kept. */
    method SetId(id: Int32) returns (outcome: Outcome)
      modifies this`id
      ensures outcome == Normal <==> id >= 0
      ensures outcome != Normal ==> outcome == Threw(IllegalArgument(NegativeId))
      ensures this.id == if outcome == Normal then id else old(this.id)
      ensures old(Valid()) ==> Valid()
    {
      if id < 0 {
        return Threw(IllegalArgument(NegativeId));
      }
      this.id := id;
      outcome := Normal;
    }

    /**
     * Guards on the visit's own `id`, not on `petId`: any pet id, negative
     * ones included, is stored, and on a valid visit the call never throws.
     */
    method SetPetId(petId: Int32) returns (outcome: Outcome)
      modifies this`petId
      ensures outcome == Normal <==> id >= 0
      ensures Valid() ==> outcome == Normal
      ensures outcome != Normal ==> outcome == Threw(IllegalArgument(NegativeId))
      ensures this.petId == if outcome == Normal then petId else old(this.petId)
    {
      if id < 0 {
        return Threw(IllegalArgument(NegativeId));
      }
      this.petId := petId;
      outcome := Normal;
    }
  }
}
