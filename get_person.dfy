/** The `get_person` agent tool: the people of the contact directory whose
    profession matches the requested one, in directory order. Reading and
    parsing the directory file is an oracle outcome. */
module GetPersonTool {
  import opened Common

  /** The professions the tool's argument schema accepts. */
  datatype Profession = Electrician | Plumber | FoodAndBeverage | Blacksmith | Receptionist {
    /** The enum string the agent passes. */
    function Name(): string {
      match this
      case Electrician => "Electrician"
      case Plumber => "Plumber"
      case FoodAndBeverage => "Food & Beverage"
      case Blacksmith => "Blacksmith"
      case Receptionist => "Receptionist"
    }
  }

  /** A directory entry; `kind` is its `type` field, any string. */
  datatype Person = Person(name: string, phone: string, kind: string)

  /** The tool's answer, `{ people }`. */
  datatype PeopleResult = PeopleResult(people: seq<Person>)

  /** `getPerson(type)`: a directory that cannot be read or parsed yields no
      one; otherwise exactly the entries of that type. */
  function GetPerson(kind: Profession, directory: Result<seq<Person>>): (r: seq<Person>)
    ensures directory.Err? ==> r == []
    ensures directory.Ok? ==> |r| <= |directory.value|
    ensures directory.Ok? ==> forall p :: p in r <==> p in directory.value && p.kind == kind.Name()
  {
    match directory
    case Err(_) => []
    case Ok(people) => Filter(people, (p: Person) => p.kind == kind.Name())
  }

  /** Splitting the directory splits the answer: matches keep their
      directory order. */
  lemma {:induction false} GetPersonKeepsOrder(kind: Profession, front: seq<Person>, back: seq<Person>)
    ensures GetPerson(kind, Ok(front + back)) == GetPerson(kind, Ok(front)) + GetPerson(kind, Ok(back))
  {
    FilterAppend(front, back, (p: Person) => p.kind == kind.Name());
  }

  /** `execute`: the matching people, wrapped. */
  function Execute(kind: Profession, directory: Result<seq<Person>>): (r: PeopleResult)
    ensures forall p :: p in r.people <==> directory.Ok? && p in directory.value && p.kind == kind.Name()
  {
    PeopleResult(GetPerson(kind, directory))
  }
}
