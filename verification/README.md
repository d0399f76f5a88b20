# Contact-store resolvers

A model of the resolver layer of a small GraphQL contact service (`index.js`).
The server keeps contact records in a module-level array, `personas`. Each record
has a name, an optional phone, a street, a city and an id. The resolvers read and
change that array:

- `personCount` counts the records.
- `findPerson` returns the first record with an exact name.
- `addPerson` rejects a duplicate name and otherwise appends a record with a new id.
- `editNumber` is meant to change a phone.
- `deletePerson` returns the list without one id.
- `allPersons` filters an externally fetched list by phone presence.
- The `Person.address` field resolver builds `{street, city}` from a record.

Layout:

- `wrappers.dfy` (`Wrappers`): `Option` and `Result`.
- `records.dfy` (`Records`): the record shapes, JavaScript truthiness of a phone, and the address view.
- `lists.dfy` (`Lists`): the array primitives the resolvers use, as functions over `seq<Person>`: search by name (`find`/`findIndex`) and `filter`.
- `resolvers.dfy` (`Resolvers`): the `allPersons` filter step as a function, and the class `Store`.
  - `Store` holds the `personas` sequence. Its queries are functions that read it, and its mutations are methods with `modifies` clauses.
  - Two seed scenarios act as clients of the store.

`editNumber` is modelled as the code behaves, which is not what it seems to intend:

- `find` answers with a record or `undefined`, never `-1`, so the `null` answer is never given.
- That answer is then used as an array key, which JavaScript turns into `"[object Object]"` or `"undefined"`. Neither is an index.
- So the write lands on a named property of the array object, the `stray` field of `Store`.
- The records and the count are untouched, and the answer is `{phone}` alone.

A corrected variant, `EditNumberFixed`, is given next to it (see Findings).

Two resolvers do not do what their names suggest, and the model follows the code:

- `editNumber` locates the record with `find`, which yields the record itself, yet treats the answer as a position that could be `-1`. So it never edits a stored record.
- `deletePerson` returns a filtered copy and leaves the store as it was. The copy drops every record carrying the id, which is at most one record when ids are unique (`FilterOtherIdRemovesAtMostOne`).

## Model

| member | source | states |
|---|---|---|
| Records.AddressOf | index.js:116-121 | the address view carries exactly the record's street and city |
| Records.AddressDeterminedByStreetAndCity | index.js:116-121 | two records have the same address iff they agree on street and city, so a phone change never alters the address |
| Records.HasPhone | index.js:79 | JavaScript truthiness of `persona.phone`: an absent phone and the empty string are falsy, any non-empty string is truthy |
| Lists.OtherId | index.js:111 | the `deletePerson` test keeps a record exactly when its id differs from the given one |
| Lists.FindIndex | index.js:103 | the position search by exact name that the corrected `editNumber` needs: the index of the first record with that name, and nothing exactly when no record has it |
| Lists.FindByName | index.js:84 | `find` by name (also used at lines 93 and 103) yields the first record with that name, and nothing (undefined) exactly when no record has it |
| Lists.Filter | index.js:79 | `filter` keeps exactly the records passing the test, each as often as in the input, as an order-preserving subsequence |
| Lists.FilterOtherIdRemovesAtMostOne | index.js:111 | when ids are unique, filtering with a test that drops exactly the records carrying an id (as `OtherId` does) shortens the list by one if some record has that id and by none otherwise |
| Resolvers.AllPersons | index.js:78-79 | no phone argument gives null; `YES` keeps exactly the records whose phone is present and non-empty, `NO` exactly the rest; both keep input order |
| Resolvers.AllPersonsPartitions | index.js:79 | the `YES` and `NO` answers together hold every fetched record exactly as often as it was fetched, and their lengths add up to the fetched length |
| Resolvers.Store.Seeded | index.js:5-26 | the store starts with the three seed records (Pedro without a phone), names and ids unique, no stray properties |
| Resolvers.Store.PersonCount | index.js:73 | the count is the number of stored records |
| Resolvers.Store.FindPerson | index.js:82-85 | the first stored record named exactly `name`, absent (not an error) when none is; reads the store only |
| Resolvers.Store.DeletePerson | index.js:111 | a new list: the stored records in order minus every record with that id, so one record shorter when ids are unique and the id is present and no shorter otherwise; the store is not changed |
| Resolvers.Store.AddPerson | index.js:92-101 | a stored name fails with `UserInputError("Nombre repetido")` naming it and leaves the store as it was; a new name appends exactly the supplied fields plus the new id, returns that record and raises the count by one; name uniqueness is preserved, and id uniqueness is too when the new id is unused |
| Resolvers.Store.EditNumber | index.js:102-110 | never answers null; the answer holds the supplied phone only; the records and their count are unchanged; the only write is a non-index property keyed "[object Object]" (name found) or "undefined" (not found) |
| Resolvers.StrayKey | index.js:106-108 | a found record becomes the key "[object Object]", an absent one "undefined" |
| Resolvers.Store.EditNumberFixed | index.js:102-110 | corrected behaviour: an unknown name answers None and changes nothing; otherwise the first record with the name gets the new phone in place and is returned; the count and the uniqueness of names and ids are preserved |
| Resolvers.SeedQueries | index.js:82-100 | on the seed records `findPerson("Nicolas")` has phone 3415929292 and address Mendoza/Rosario, `findPerson("Nobody")` is absent, and a second `addPerson("Juan", …)` fails, leaving the first Juan in place |
| Resolvers.SeedEditPedro | index.js:103-109 | on the seed records `editNumber("Pedro", "999")` answers `{phone: "999"}` while Pedro keeps no phone; the corrected version gives Pedro the phone 999 and leaves his address Cordoba/Barcelona |

## Findings

| source | as written | input that shows it | evidently intended | confidence | as-written member | corrected member |
|---|---|---|---|---|---|---|
| index.js:103-108 | `find` answers a record or undefined. That answer is compared with `-1` and then used as an array index, so the check never succeeds and the write goes to a non-index property | `editNumber("Pedro", "999")` on the seed records: the answer is `{phone: "999"}`, and Pedro still has no phone | locate the record's position (`findIndex`), answer null when it is `-1`, otherwise replace the phone in place and return the updated record | high; not executed | Resolvers.Store.EditNumber (shown by Resolvers.SeedEditPedro) | Resolvers.Store.EditNumberFixed |

## Left out

- The HTTP `fetch` of `allPersons` and its JSON decoding are network I/O. `AllPersons` takes the fetched list as a parameter, and a failing fetch is not modelled. The fetch happens even when no phone argument is given, and that is not observable in the model.
- Fetched records are assumed to have the record shape. A phone that is not a string, such as a number in the JSON, is not modelled.
- `uuid()` is an external library. `AddPerson` takes the generated id as the parameter `freshId`. Id uniqueness is preserved only on the condition that `freshId` is unused.
- The Apollo server, its listener and the `gql` schema text are transport and declarations. The schema only shaped the datatypes: `YesNo`, `Address`, and an optional phone.
- GraphQL execution after a resolver returns is not modelled:
  - `editNumber` returns a `{phone}` object. If a query selects `name`, `id` or `address` on it, those non-null fields cannot be resolved, and the answer becomes null with an error. A query that selects only `phone` gets `{phone: "999"}`.
  - The `allPersons` field is declared `[Person]!` (index.js:50). Without an argument, its resolver returns null, which that type does not allow, so the client always gets an error. `AllPersons` models only the resolver's null.
- Object identity is not modelled. In the code, `addPerson` returns the same object it pushes, and the model returns an equal value.
- Concurrency is not modelled. Node's event loop runs each resolver to completion, so each operation is one atomic step.
- The commented-out string `address` resolver is dead code.
