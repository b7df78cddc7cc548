/** `model.Pet`: a pet with a validated name and ids, a type and its visits. */
module PetModel {
  import opened Values
  import opened PetTypeModel
  import opened VisitModel

  class Pet {
    var name: Option<string>
    var birthDate: Option<LocalDate>
    var petType: PetType?
    var id: Int32
    var ownerId: Int32
    var visits: Option<seq<Visit>>

    /** Every setter keeps the id non-negative, starting from Java's default 0. */
    ghost predicate Valid()
      reads this
    {
      id >= 0
    }

    constructor ()
      ensures Valid()
      ensures name == None && birthDate == None && petType == null
      ensures id == 0 && ownerId == 0 && visits == None
    {
      name := None;
      birthDate := None;
      petType := null;
      id := 0;
      ownerId := 0;
      visits := None;
    }

    /** Accepts any name of at most 30 characters, the empty name included. */
    method SetName(name: string) returns (outcome: Outcome)
      modifies this`name
      ensures outcome == Normal <==> |name| <= 30
      ensures outcome != Normal ==> outcome == Threw(IllegalArgument(LengthOutOfRange))
      ensures this.name == if outcome == Normal then Some(name) else old(this.name)
    {
      if |name| <= 30 {
        this.name := Some(name);
        outcome := Normal;
      } else {
        outcome := Threw(IllegalArgument(LengthOutOfRange));
      }
    }

    method SetBirthDate(birthDate: Option<LocalDate>)
      modifies this`birthDate
      ensures this.birthDate == birthDate
    {
      this.birthDate := birthDate;
    }

    method SetType(petType: PetType?)
      modifies this`petType
      ensures this.petType == petType
    {
      this.petType := petType;
    }

    /** Accepts any id from 0 up; a negative id is refused and the id is kept. */
    method SetId(id: Int32) returns (outcome: Outcome)
      modifies this`id
      ensures outcome == Normal <==> id >= 0
      ensures outcome != Normal ==> outcome == Threw(IllegalArgument(NegativeId))
      ensures this.id == if outcome == Normal then id else old(this.id)
      ensures old(Valid()) ==> Valid()
    {
      if id < 0 {
        return Threw(IllegalArgument(NegativeId));
      }
      this.id := id;
      outcome := Normal;
    }

    /**
     * Guards on the pet's own `id`, not on `ownerId`: any owner id, negative
     * ones included, is stored, and on a valid pet the call never throws.
     */
    method SetOwnerId(ownerId: Int32) returns (outcome: Outcome)
      modifies this`ownerId
      ensures outcome == Normal <==> id >= 0
      ensures Valid() ==> outcome == Normal
      ensures outcome != Normal ==> outcome == Threw(IllegalArgument(NegativeId))
      ensures this.ownerId == if outcome == Normal then ownerId else old(this.ownerId)
    {
      if id < 0 {
        return Threw(IllegalArgument(NegativeId));
      }
      this.ownerId := ownerId;
      outcome := Normal;
    }

    method SetVisits(visits: Option<seq<Visit>>)
      modifies this`visits
      ensures this.visits == visits
    {
      this.visits := visits;
    }
  }
}
