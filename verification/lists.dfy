/** The two array primitives the resolvers are built from, over the records
    they are applied to: searching by exact name, and filtering by a test. */
module Lists {
  import opened Wrappers
  import opened Records

  /** `i` is the position of the first record whose name is exactly `name`. */
  ghost predicate FirstNamed(s: seq<Person>, name: string, i: int)
  {
    0 <= i < |s| && s[i].name == name && forall j :: 0 <= j < i ==> s[j].name != name
  }

  /** Some record of `s` is named exactly `name`. */
  ghost predicate HasName(s: seq<Person>, name: string)
  {
    exists i :: 0 <= i < |s| && s[i].name == name
  }

  /** Some record of `s` carries identifier `id`. */
  ghost predicate HasId(s: seq<Person>, id: string)
  {
    exists i :: 0 <= i < |s| && s[i].id == id
  }

  /** No two records share a name. */
  ghost predicate NamesUnique(s: seq<Person>)
  {
    forall i, j :: 0 <= i < j < |s| ==> s[i].name != s[j].name
  }

  /** No two records share an identifier. */
  ghost predicate IdsUnique(s: seq<Person>)
  {
    forall i, j :: 0 <= i < j < |s| ==> s[i].id != s[j].id
  }

  /** `r` is obtained from `s` by deleting elements, keeping the order of the rest. */
  ghost predicate IsSubsequence(r: seq<Person>, s: seq<Person>)
    decreases |s|
  {
    if r == [] then true
    else if s == [] then false
    else (r[0] == s[0] && IsSubsequence(r[1..], s[1..])) || IsSubsequence(r, s[1..])
  }

  /** The position search the corrected `editNumber` uses, and the scan behind
      `find`: the position of the first record named exactly `name`, or None
      when there is none. */
  function FindIndex(s: seq<Person>, name: string): (r: Option<nat>)
    ensures r.Some? ==> FirstNamed(s, name, r.value)
    ensures r.None? <==> !HasName(s, name)
    decreases |s|
  {
    if |s| == 0 then None
    else if s[0].name == name then Some(0)
    else
      match FindIndex(s[1..], name)
      case None =>
        assert forall j :: 1 <= j < |s| ==> s[j] == s[1..][j - 1];
        None
      case Some(i) =>
        assert forall j :: 1 <= j <= i ==> s[j] == s[1..][j - 1];
        Some(i + 1)
  }

  /** `find` with the test `persona.name === name`: the first record with that
      exact name, or None (JavaScript's `undefined`). */
  function FindByName(s: seq<Person>, name: string): (r: Option<Person>)
    ensures r.None? <==> !HasName(s, name)
    ensures forall i :: FirstNamed(s, name, i) ==> r == Some(s[i])
  {
    match FindIndex(s, name)
    case None => None
    case Some(i) => Some(s[i])
  }

  /** `filter`: the records of `s` that pass `keep`, in their original order. */
  function Filter(s: seq<Person>, keep: Person -> bool): (r: seq<Person>)
    ensures forall i :: 0 <= i < |r| ==> keep(r[i])
    ensures forall p :: multiset(r)[p] == if keep(p) then multiset(s)[p] else 0
    ensures IsSubsequence(r, s)
    decreases |s|
  {
    if |s| == 0 then []
    else
      assert s == [s[0]] + s[1..];
      if keep(s[0]) then [s[0]] + Filter(s[1..], keep)
      else Filter(s[1..], keep)
  }

  /** The test `person.id !== id` of `deletePerson`. */
  function OtherId(id: string): (keep: Person -> bool)
    ensures forall p :: keep(p) <==> p.id != id
  {
    (p: Person) => p.id != id
  }

  /** With identifiers unique, filtering with a test that drops exactly the
      records carrying `id` (such as `OtherId(id)`) removes one record when some
      record carries it and none otherwise. */
  lemma {:induction false} FilterOtherIdRemovesAtMostOne(s: seq<Person>, id: string, keep: Person -> bool)
    requires IdsUnique(s)
    requires forall p :: keep(p) <==> p.id != id
    ensures |Filter(s, keep)| == if HasId(s, id) then |s| - 1 else |s|
    decreases |s|
  {
    if |s| > 0 {
      var t := s[1..];
      assert IdsUnique(t) by {
        forall i, j | 0 <= i < j < |t| ensures t[i].id != t[j].id {
          assert t[i] == s[i + 1] && t[j] == s[j + 1];
        }
      }
      FilterOtherIdRemovesAtMostOne(t, id, keep);
      if s[0].id == id {
        assert HasId(s, id);
        assert !HasId(t, id) by {
          forall j | 0 <= j < |t| ensures t[j].id != id {
            assert t[j] == s[j + 1];
          }
        }
      } else {
        assert HasId(s, id) <==> HasId(t, id) by {
          if HasId(s, id) {
            var k :| 0 <= k < |s| && s[k].id == id;
            assert t[k - 1] == s[k];
          }
          if HasId(t, id) {
            var k :| 0 <= k < |t| && t[k].id == id;
            assert s[k + 1] == t[k];
          }
        }
      }
    }
  }
}
