/** Spring's LinkedMultiValueMap<String, V> as the executor uses it: a map
    from each key to the list of values added under it, whose keys keep the
    order in which they were first added. It holds both the form fields of a
    FORM request and the query parameters of a request URI. */
module MultiValue {

  /** No element of s occurs twice. */
  ghost predicate Distinct(s: seq<string>)
  {
    forall i, j :: 0 <= i < j < |s| ==> s[i] != s[j]
  }

  /** The value of a LinkedMultiValueMap: its keys in first-insertion order
      and, for each key, its values in the order they were added. */
  datatype MultiValueMap<V> = MultiValueMap(keys: seq<string>, values: map<string, seq<V>>)

  /** Every key is listed once, listed and mapped keys agree, and no key
      holds an empty list (a key exists only once something was added). */
  ghost predicate Valid<V>(m: MultiValueMap<V>)
  {
    && Distinct(m.keys)
    && (forall k :: k in m.values <==> k in m.keys)
    && (forall k :: k in m.values ==> m.values[k] != [])
  }

  function Empty<V>(): (m: MultiValueMap<V>)
    ensures Valid(m)
  {
    MultiValueMap([], map[])
  }

  /** The values stored under k, oldest first; [] where Spring's `get` gives null. */
  function Get<V>(m: MultiValueMap<V>, k: string): seq<V>
  {
    if k in m.values then m.values[k] else []
  }

  /** `add(k, v)`: v goes to the end of k's list; a new key goes to the end of the keys. */
  function WithAdded<V>(m: MultiValueMap<V>, k: string, v: V): (r: MultiValueMap<V>)
    requires Valid(m)
    ensures Valid(r)
    ensures Get(r, k) == Get(m, k) + [v]
    ensures forall k' :: k' != k ==> Get(r, k') == Get(m, k')
    ensures k in m.keys ==> r.keys == m.keys
    ensures k !in m.keys ==> r.keys == m.keys + [k]
  {
    if k in m.values then MultiValueMap(m.keys, m.values[k := m.values[k] + [v]])
    else MultiValueMap(m.keys + [k], m.values[k := [v]])
  }

  /** s with every occurrence of k dropped, the rest in order. */
  function Without(s: seq<string>, k: string): (r: seq<string>)
    ensures forall x :: x in r <==> x in s && x != k
    ensures Distinct(s) ==> Distinct(r)
  {
    if s == [] then []
    else if s[0] == k then Without(s[1..], k)
    else
      var rest := Without(s[1..], k);
      assert Distinct(s) ==> Distinct(s[1..]) && s[0] !in s[1..] by {
        if Distinct(s) {
          forall i, j | 0 <= i < j < |s[1..]| ensures s[1..][i] != s[1..][j] {
            assert s[1..][i] == s[i + 1] && s[1..][j] == s[j + 1];
          }
        }
      }
      [s[0]] + rest
  }

  /** `remove(k)`: k and all of its values are gone, every other key is untouched. */
  function Removed<V>(m: MultiValueMap<V>, k: string): (r: MultiValueMap<V>)
    requires Valid(m)
    ensures Valid(r)
    ensures Get(r, k) == [] && k !in r.keys
    ensures forall k' :: k' != k ==> Get(r, k') == Get(m, k')
  {
    MultiValueMap(Without(m.keys, k), m.values - {k})
  }

  /** The map built by adding the pairs of ps one after another to an empty map. */
  function FromPairs<V>(ps: seq<(string, V)>): (m: MultiValueMap<V>)
    ensures Valid(m)
  {
    if ps == [] then Empty()
    else WithAdded(FromPairs(ps[..|ps| - 1]), ps[|ps| - 1].0, ps[|ps| - 1].1)
  }

  /** The values paired with k in ps, in the order in which they occur. */
  function ValuesNamed<V>(ps: seq<(string, V)>, k: string): seq<V>
  {
    if ps == [] then []
    else ValuesNamed(ps[..|ps| - 1], k) + (if ps[|ps| - 1].0 == k then [ps[|ps| - 1].1] else [])
  }

  /** The names of ps without repetition, each where it first occurs. */
  function FirstOccurrences<V>(ps: seq<(string, V)>): (r: seq<string>)
    ensures Distinct(r)
    ensures forall i :: 0 <= i < |ps| ==> ps[i].0 in r
    ensures forall x :: x in r ==> exists i :: 0 <= i < |ps| && ps[i].0 == x
  {
    if ps == [] then []
    else
      var d := FirstOccurrences(ps[..|ps| - 1]);
      assert forall i :: 0 <= i < |ps| - 1 ==> ps[..|ps| - 1][i] == ps[i];
      if ps[|ps| - 1].0 in d then d else d + [ps[|ps| - 1].0]
  }

  /** Adding pairs one by one loses nothing and reorders nothing: every key
      holds all of its values in insertion order, and the keys come in the
      order of their first occurrence. */
  lemma {:induction false} FromPairsGroupsValues<V>(ps: seq<(string, V)>, k: string)
    ensures Get(FromPairs(ps), k) == ValuesNamed(ps, k)
    ensures FromPairs(ps).keys == FirstOccurrences(ps)
  {
    if ps != [] {
      FromPairsGroupsValues(ps[..|ps| - 1], k);
    }
  }

  /** The in-place map that a caller fills with `add`. */
  class LinkedMultiValueMap<V> {
    var keys: seq<string>
    var values: map<string, seq<V>>

    function Snapshot(): MultiValueMap<V>
      reads this
    {
      MultiValueMap(keys, values)
    }

    constructor ()
      ensures Snapshot() == Empty()
    {
      keys := [];
      values := map[];
    }

    method Add(k: string, v: V)
      requires Valid(Snapshot())
      modifies this
      ensures Snapshot() == WithAdded(old(Snapshot()), k, v)
    {
      if k in values {
        values := values[k := values[k] + [v]];
      } else {
        keys := keys + [k];
        values := values[k := [v]];
      }
    }
  }
}
