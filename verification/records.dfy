/** The shapes the contact service works with: the stored person, the address
    view synthesised from it, the `YesNo` argument of `allPersons`, and the
    error `addPerson` raises. */
module Records {
  import opened Wrappers

  /** A stored contact. `phone` is optional (absent or null both read as None);
      `id` is assigned when the record is created. */
  datatype Person = Person(name: string, phone: Option<string>, street: string, city: string, id: string)

  /** The `Address` object type: never stored, built on demand from a person. */
  datatype Address = Address(street: string, city: string)

  /** The `YesNo` schema enum. */
  datatype YesNo = YES | NO

  /** The object `editNumber` hands back: a spread of something that is not a
      stored person, overridden with a phone, so a phone and nothing else. */
  datatype PhoneOnly = PhoneOnly(phone: string)

  /** Apollo's `UserInputError`: a message and the offending argument. */
  datatype InputError = UserInputError(message: string, invalidArgs: string)

  const DuplicateNameMessage: string := "Nombre repetido"

  /** JavaScript truthiness of `persona.phone`: the field is present and is not
      the empty string. */
  predicate HasPhone(p: Person)
    ensures HasPhone(p) ==> p.phone.Some?
    ensures p.phone == None ==> !HasPhone(p)
    ensures p.phone == Some("") ==> !HasPhone(p)
    ensures p.phone.Some? && |p.phone.value| > 0 ==> HasPhone(p)
  {
    p.phone.Some? && p.phone.value != ""
  }

  /** The `Person.address` field resolver: the record's own street and city. */
  function AddressOf(p: Person): (a: Address)
    ensures a.street == p.street && a.city == p.city
  {
    Address(p.street, p.city)
  }

  /** The address depends on street and city only, so two records agree on it
      exactly when they agree on those two fields (in particular a phone edit
      never changes it). */
  lemma AddressDeterminedByStreetAndCity(p: Person, q: Person)
    ensures AddressOf(p) == AddressOf(q) <==> p.street == q.street && p.city == q.city
  {
  }
}
