/** The two list transforms the stores apply to their id-carrying entries:
    `list.filter(x => x.id !== id)` and `list.map(x => x.id === id ? merge(x) : x)`,
    and `list.find(p)`. Ids are plain strings and are never assumed to be unique. */
module IdLists {
  import opened JsRuntime

  /** `s.filter(x => idOf(x) !== id)`. */
  function RemoveById<T>(s: seq<T>, idOf: T -> string, id: string): (r: seq<T>)
    ensures |r| <= |s|
    ensures forall x :: x in r ==> x in s && idOf(x) != id
    ensures forall x :: x in s && idOf(x) != id ==> x in r
  {
    if s == [] then []
    else if idOf(s[0]) == id then RemoveById(s[1..], idOf, id)
    else [s[0]] + RemoveById(s[1..], idOf, id)
  }

  /** Filtering a concatenation filters each part in place: the kept entries stay in
      their original relative order. */
  lemma {:induction false} RemoveByIdAppend<T>(a: seq<T>, b: seq<T>, idOf: T -> string, id: string)
    ensures RemoveById(a + b, idOf, id) == RemoveById(a, idOf, id) + RemoveById(b, idOf, id)
  {
    if a != [] {
      assert (a + b)[1..] == a[1..] + b;
      RemoveByIdAppend(a[1..], b, idOf, id);
    } else {
      assert a + b == b;
    }
  }

  /** Removing an id that no entry carries changes nothing. */
  lemma {:induction false} RemoveAbsentId<T>(s: seq<T>, idOf: T -> string, id: string)
    requires forall x :: x in s ==> idOf(x) != id
    ensures RemoveById(s, idOf, id) == s
  {
    if s != [] {
      RemoveAbsentId(s[1..], idOf, id);
      assert [s[0]] + s[1..] == s;
    }
  }

  /** Removing twice is removing once. */
  lemma RemoveByIdIdempotent<T>(s: seq<T>, idOf: T -> string, id: string)
    ensures RemoveById(RemoveById(s, idOf, id), idOf, id) == RemoveById(s, idOf, id)
  {
    RemoveAbsentId(RemoveById(s, idOf, id), idOf, id);
  }

  /** `s.map(x => idOf(x) === id ? merge(x) : x)`. */
  function UpdateById<T>(s: seq<T>, idOf: T -> string, id: string, merge: T -> T): (r: seq<T>)
    ensures |r| == |s|
    ensures forall i :: 0 <= i < |s| && idOf(s[i]) != id ==> r[i] == s[i]
    ensures forall i :: 0 <= i < |s| && idOf(s[i]) == id ==> r[i] == merge(s[i])
  {
    if s == [] then []
    else [if idOf(s[0]) == id then merge(s[0]) else s[0]] + UpdateById(s[1..], idOf, id, merge)
  }

  /** Updating an id that no entry carries changes nothing. */
  lemma UpdateAbsentId<T>(s: seq<T>, idOf: T -> string, id: string, merge: T -> T)
    requires forall x :: x in s ==> idOf(x) != id
    ensures UpdateById(s, idOf, id, merge) == s
  {
  }

  /** When merging twice is merging once, updating twice is updating once, even when the
      merge changes an entry's id. */
  lemma UpdateByIdIdempotent<T>(s: seq<T>, idOf: T -> string, id: string, merge: T -> T)
    requires forall x :: merge(merge(x)) == merge(x)
    ensures UpdateById(UpdateById(s, idOf, id, merge), idOf, id, merge) == UpdateById(s, idOf, id, merge)
  {
    var once := UpdateById(s, idOf, id, merge);
    var twice := UpdateById(once, idOf, id, merge);
    forall i | 0 <= i < |s| ensures twice[i] == once[i] {
      if idOf(s[i]) == id {
        assert once[i] == merge(s[i]);
      }
    }
  }

  /** `s.find(p)`: the first entry satisfying `p`, or undefined. */
  function FindFirst<T>(s: seq<T>, p: T -> bool): (r: Option<T>)
    ensures r.None? <==> forall x :: x in s ==> !p(x)
    ensures r.Some? ==> exists k :: 0 <= k < |s| && s[k] == r.value && p(r.value)
                                    && forall j :: 0 <= j < k ==> !p(s[j])
  {
    if s == [] then None
    else if p(s[0]) then Some(s[0])
    else FindFirst(s[1..], p)
  }
}
