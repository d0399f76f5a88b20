/** The resolvers of the contact service: the filter step of `allPersons`, and
    the store of contacts with the queries and mutations that act on it. */
module Resolvers {
  import opened Wrappers
  import opened Records
  import opened Lists

  /** The `allPersons` resolver once its list has been fetched: without a phone
      argument it answers null; with `YES` it keeps the records with a truthy
      phone, with `NO` the others. */
  function AllPersons(fetched: seq<Person>, phone: Option<YesNo>): (r: Option<seq<Person>>)
    ensures r.None? <==> phone.None?
    ensures r.Some? ==> IsSubsequence(r.value, fetched)
    ensures phone == Some(YES) ==>
      forall p :: multiset(r.value)[p] == if HasPhone(p) then multiset(fetched)[p] else 0
    ensures phone == Some(NO) ==>
      forall p :: multiset(r.value)[p] == if HasPhone(p) then 0 else multiset(fetched)[p]
  {
    match phone
    case None => None
    case Some(filter) =>
      Some(Filter(fetched, if filter == YES then HasPhone else (p: Person) => !HasPhone(p)))
  }

  /** The `YES` and `NO` answers split the fetched list between them: every
      record lands in exactly one of the two, as often as it was fetched. */
  lemma AllPersonsPartitions(fetched: seq<Person>)
    ensures AllPersons(fetched, Some(YES)).Some? && AllPersons(fetched, Some(NO)).Some?
    ensures multiset(AllPersons(fetched, Some(YES)).value) + multiset(AllPersons(fetched, Some(NO)).value)
         == multiset(fetched)
    ensures |AllPersons(fetched, Some(YES)).value| + |AllPersons(fetched, Some(NO)).value| == |fetched|
  {
  }

  /** The module-level `personas` array and the resolvers that read or change it. */
  class Store {
    /** The indexed records, in order. */
    var personas: seq<Person>
    /** Properties written onto the array object under keys that are not array
        indices; they never show up among the records nor in the length. */
    var stray: map<string, PhoneOnly>

    /** The three seed records the server starts with. */
    constructor Seeded()
      ensures personas == [
        Person("Nicolas", Some("3415929292"), "Mendoza", "Rosario", "asdas-12312-qweqw"),
        Person("Juan", Some("3415919191"), "Valparaiso", "Salta", "lsdgs-12312-qweqw"),
        Person("Pedro", None, "Cordoba", "Barcelona", "asdas-12312-qwpkw")]
      ensures stray == map[]
      ensures NamesUnique(personas) && IdsUnique(personas)
    {
      personas := [
        Person("Nicolas", Some("3415929292"), "Mendoza", "Rosario", "asdas-12312-qweqw"),
        Person("Juan", Some("3415919191"), "Valparaiso", "Salta", "lsdgs-12312-qweqw"),
        Person("Pedro", None, "Cordoba", "Barcelona", "asdas-12312-qwpkw")];
      stray := map[];
    }

    /** `personCount`: the number of indexed records. */
    function PersonCount(): (n: nat)
      reads this
      ensures n == |personas|
    {
      |personas|
    }

    /** `findPerson`: the first record named exactly `name`, or None when no
        record is; a query, so the store is untouched. */
    function FindPerson(name: string): (r: Option<Person>)
      reads this
      ensures r.None? <==> !HasName(personas, name)
      ensures forall i :: FirstNamed(personas, name, i) ==> r == Some(personas[i])
    {
      FindByName(personas, name)
    }

    /** `deletePerson`: a new list of the records, in order, without those
        carrying `id`; the store itself keeps every record. */
    function DeletePerson(id: string): (r: seq<Person>)
      reads this
      ensures IsSubsequence(r, personas)
      ensures forall p :: multiset(r)[p] == if p.id == id then 0 else multiset(personas)[p]
      ensures IdsUnique(personas) ==> |r| == if HasId(personas, id) then |personas| - 1 else |personas|
    {
      assert IdsUnique(personas) ==>
        |Filter(personas, OtherId(id))| == if HasId(personas, id) then |personas| - 1 else |personas|
      by {
        if IdsUnique(personas) {
          FilterOtherIdRemovesAtMostOne(personas, id, OtherId(id));
        }
      }
      Filter(personas, OtherId(id))
    }

    /** `addPerson`: a name already stored is rejected with a `UserInputError`
        naming it; otherwise the arguments plus `freshId` (the identifier the
        server generates) are appended as a new record, which is returned. */
    method AddPerson(name: string, phone: Option<string>, street: string, city: string, freshId: string)
      returns (r: Result<Person, InputError>)
      modifies this`personas
      ensures HasName(old(personas), name) ==>
        r == Failure(UserInputError(DuplicateNameMessage, name)) && personas == old(personas)
      ensures !HasName(old(personas), name) ==>
        && r == Success(Person(name, phone, street, city, freshId))
        && personas == old(personas) + [r.value]
        && PersonCount() == old(PersonCount()) + 1
      ensures NamesUnique(old(personas)) ==> NamesUnique(personas)
      ensures IdsUnique(old(personas)) && !HasId(old(personas), freshId) ==> IdsUnique(personas)
    {
      if FindPerson(name).Some? {
        return Failure(UserInputError(DuplicateNameMessage, name));
      }
      var person := Person(name, phone, street, city, freshId);
      personas := personas + [person];
      r := Success(person);
    }

    /** `editNumber` as the code behaves. The search yields a record or nothing,
        never the number -1, so the null answer is never given. That value is
        then used as a property key, which JavaScript turns into "[object Object]"
        or "undefined": neither is an array index, so the write lands on `stray`,
        the records are untouched, and the answer holds the new phone alone. */
    method EditNumber(name: string, phone: string) returns (r: Option<PhoneOnly>)
      modifies this`stray
      ensures r == Some(PhoneOnly(phone))
      ensures personas == old(personas)
      ensures stray == old(stray)[StrayKey(HasName(personas, name)) := PhoneOnly(phone)]
    {
      var personIndex := FindPerson(name);
      var key := StrayKey(personIndex.Some?);
      var person := if key in stray then Some(stray[key]) else None;
      var updatedPerson :=
        match person
        case None => PhoneOnly(phone)
        case Some(prior) => prior.(phone := phone);
      stray := stray[key := updatedPerson];
      r := Some(updatedPerson);
    }

    /** `editNumber` as it is evidently meant to work: locate the first record
        with the name by position, replace its phone in place and return the
        updated record, or answer None when no record has the name. */
    method EditNumberFixed(name: string, phone: string) returns (r: Option<Person>)
      modifies this`personas
      ensures !HasName(old(personas), name) ==> r.None? && personas == old(personas)
      ensures forall i :: FirstNamed(old(personas), name, i) ==>
        && r == Some(old(personas)[i].(phone := Some(phone)))
        && personas == old(personas)[i := r.value]
      ensures PersonCount() == old(PersonCount())
      ensures NamesUnique(old(personas)) ==> NamesUnique(personas)
      ensures IdsUnique(old(personas)) ==> IdsUnique(personas)
    {
      var personIndex := FindIndex(personas, name);
      if personIndex.None? {
        return None;
      }
      var i := personIndex.value;
      var updatedPerson := personas[i].(phone := Some(phone));
      personas := personas[i := updatedPerson];
      r := Some(updatedPerson);
    }
  }

  /** The property key JavaScript makes of `find`'s answer: a record becomes
      "[object Object]", `undefined` becomes "undefined". */
  function StrayKey(found: bool): (k: string)
    ensures k == "[object Object]" || k == "undefined"
    ensures found <==> k == "[object Object]"
  {
    if found then "[object Object]" else "undefined"
  }

  /** On the seed records, `findPerson("Nicolas")` gives Nicolas's phone and
      address and `findPerson("Nobody")` gives nothing; adding a second "Juan"
      fails and leaves the first one in place. */
  method SeedQueries() returns (nicolas: Option<Person>, nobody: Option<Person>, secondJuan: Result<Person, InputError>, juan: Option<Person>)
    ensures nicolas.Some? && nicolas.value.phone == Some("3415929292")
    ensures nicolas.Some? && AddressOf(nicolas.value) == Address("Mendoza", "Rosario")
    ensures nobody.None?
    ensures secondJuan == Failure(UserInputError(DuplicateNameMessage, "Juan"))
    ensures juan.Some? && juan.value.street == "Valparaiso"
  {
    var store := new Store.Seeded();
    assert FirstNamed(store.personas, "Nicolas", 0);
    nicolas := store.FindPerson("Nicolas");
    assert !HasName(store.personas, "Nobody") by {
      assert "Nicolas"[1] != "Nobody"[1] && "Juan"[0] != "Nobody"[0] && "Pedro"[0] != "Nobody"[0];
    }
    nobody := store.FindPerson("Nobody");
    assert HasName(store.personas, "Juan") by {
      assert store.personas[1].name == "Juan";
    }
    secondJuan := store.AddPerson("Juan", None, "Otra", "Otra", "new-id");
    assert FirstNamed(store.personas, "Juan", 1) by {
      assert "Nicolas" != "Juan" by { assert "Nicolas"[0] != "Juan"[0]; }
    }
    juan := store.FindPerson("Juan");
  }

  /** `editNumber("Pedro", "999")` on the seed records: as written, the answer
      is `{phone: "999"}` but Pedro still has no phone afterwards; with the fix,
      his phone is "999". */
  method SeedEditPedro() returns (answer: Option<PhoneOnly>, asWritten: Option<Person>, fixed: Option<Person>)
    ensures answer == Some(PhoneOnly("999"))
    ensures asWritten.Some? && asWritten.value.phone.None?
    ensures fixed.Some? && fixed.value.phone == Some("999")
    ensures fixed.Some? && AddressOf(fixed.value) == Address("Cordoba", "Barcelona")
  {
    var pedro := "Pedro";
    assert FirstNamed([Person("Nicolas", Some("3415929292"), "Mendoza", "Rosario", "asdas-12312-qweqw"),
        Person("Juan", Some("3415919191"), "Valparaiso", "Salta", "lsdgs-12312-qweqw"),
        Person("Pedro", None, "Cordoba", "Barcelona", "asdas-12312-qwpkw")], pedro, 2) by {
      assert "Nicolas"[0] != pedro[0] && "Juan"[0] != pedro[0];
    }
    var store := new Store.Seeded();
    answer := store.EditNumber(pedro, "999");
    asWritten := store.FindPerson(pedro);
    var fixedStore := new Store.Seeded();
    var _ := fixedStore.EditNumberFixed(pedro, "999");
    assert FirstNamed(fixedStore.personas, pedro, 2);
    fixed := fixedStore.FindPerson(pedro);
    AddressDeterminedByStreetAndCity(fixed.value, Person(pedro, None, "Cordoba", "Barcelona", "asdas-12312-qwpkw"));
  }
}
