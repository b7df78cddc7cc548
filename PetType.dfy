/** `model.PetType`: a pet species with a validated name and id. */
module PetTypeModel {
  import opened Values

  class PetType {
    var name: Option<string>
    var id: Int32

    constructor ()
      ensures name == None && id == 0
    {
      name := None;
      id := 0;
    }

    /** Accepts a name of 1 to 80 characters; anything else is refused and the name is kept. */
    method SetName(name: string) returns (outcome: Outcome)
      modifies this`name
      ensures outcome == Normal <==> 1 <= |name| <= 80
      ensures outcome != Normal ==> outcome == Threw(IllegalArgument(LengthOutOfRange))
      ensures this.name == if outcome == Normal then Some(name) else old(this.name)
    {
      if |name| != 0 && |name| <= 80 {
        this.name := Some(name);
        outcome := Normal;
      } else {
        outcome := Threw(IllegalArgument(LengthOutOfRange));
      }
    }

    /** Accepts any id from 0 up; a negative id is refused and the id is kept. */
    method SetId(id: Int32) returns (outcome: Outcome)
      modifies this`id
      ensures outcome == Normal <==> id >= 0
      ensures outcome != Normal ==> outcome == Threw(IllegalArgument(NegativeId))
      ensures this.id == if outcome == Normal then id else old(this.id)
    {
      if id < 0 {
        return Threw(IllegalArgument(NegativeId));
      }
      this.id := id;
      outcome := Normal;
    }
  }
}
