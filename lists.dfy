/**
 The three list transforms the editor's state updates are built from:
 replace the elements carrying one id (`prev.map(e => e.id === id ? ... : e)`),
 drop the elements carrying one id (`prev.filter(e => e.id !== selectedId)`),
 and map every element (`list.map(...)`, used when the canvas is painted).
 */
module Lists {
  import opened Elements

  /** Applies `f` to exactly the elements whose id is `id`, keeping length and order. */
  function MapWhere<T>(s: seq<T>, idOf: T -> int, id: int, f: T -> T): (r: seq<T>)
    ensures |r| == |s|
    ensures forall i :: 0 <= i < |s| && idOf(s[i]) != id ==> r[i] == s[i]
    ensures forall i :: 0 <= i < |s| && idOf(s[i]) == id ==> r[i] == f(s[i])
  {
    if s == [] then []
    else [if idOf(s[0]) == id then f(s[0]) else s[0]] + MapWhere(s[1..], idOf, id, f)
  }

  /**
   Keeps the elements whose id differs from `sel`. An absent selection is
   compared like JavaScript's `null`: no element id equals it.
   */
  function Without<T>(s: seq<T>, idOf: T -> int, sel: Option<int>): (r: seq<T>)
    ensures |r| <= |s|
    ensures forall i :: 0 <= i < |r| ==> r[i] in s && Some(idOf(r[i])) != sel
    ensures forall i :: 0 <= i < |s| && Some(idOf(s[i])) != sel ==> s[i] in r
  {
    if s == [] then []
    else if Some(idOf(s[0])) != sel then [s[0]] + Without(s[1..], idOf, sel)
    else Without(s[1..], idOf, sel)
  }

  /** Applies `f` to every element. */
  function Map<A, B>(s: seq<A>, f: A -> B): (r: seq<B>)
    ensures |r| == |s|
    ensures forall i :: 0 <= i < |s| ==> r[i] == f(s[i])
  {
    if s == [] then [] else [f(s[0])] + Map(s[1..], f)
  }

  /** Filtering keeps relative order: it distributes over concatenation. */
  lemma {:induction false} WithoutAppend<T>(a: seq<T>, b: seq<T>, idOf: T -> int, sel: Option<int>)
    ensures Without(a + b, idOf, sel) == Without(a, idOf, sel) + Without(b, idOf, sel)
  {
    if a == [] {
      assert a + b == b;
    } else {
      assert (a + b)[0] == a[0];
      assert (a + b)[1..] == a[1..] + b;
      WithoutAppend(a[1..], b, idOf, sel);
    }
  }

  /**
   Filtering keeps every other element exactly as often as it occurs, and no
   copy of an element carrying the selected id.
   */
  lemma {:induction false} WithoutCounts<T>(s: seq<T>, idOf: T -> int, sel: Option<int>)
    ensures forall e ::
      multiset(Without(s, idOf, sel))[e] == (if Some(idOf(e)) != sel then multiset(s)[e] else 0)
  {
    if s != [] {
      assert s == [s[0]] + s[1..];
      WithoutCounts(s[1..], idOf, sel);
    }
  }

  /** Filtering out an id that no element carries changes nothing. */
  lemma {:induction false} WithoutAbsent<T>(s: seq<T>, idOf: T -> int, sel: Option<int>)
    requires forall i :: 0 <= i < |s| ==> Some(idOf(s[i])) != sel
    ensures Without(s, idOf, sel) == s
  {
    if s != [] {
      WithoutAbsent(s[1..], idOf, sel);
    }
  }

  /** The same, as an implication that a function body can use. */
  lemma WithoutAbsentWhen<T>(s: seq<T>, idOf: T -> int, sel: Option<int>)
    ensures (forall i :: 0 <= i < |s| ==> Some(idOf(s[i])) != sel) ==> Without(s, idOf, sel) == s
  {
    if forall i :: 0 <= i < |s| ==> Some(idOf(s[i])) != sel {
      WithoutAbsent(s, idOf, sel);
    }
  }

  /** Filtering twice by the same id is filtering once. */
  lemma WithoutIdempotent<T>(s: seq<T>, idOf: T -> int, sel: Option<int>)
    ensures Without(Without(s, idOf, sel), idOf, sel) == Without(s, idOf, sel)
  {
    WithoutAbsent(Without(s, idOf, sel), idOf, sel);
  }

  /** Filtering commutes with any map that keeps ids. */
  lemma {:induction false} WithoutMap<A, B>(s: seq<A>, f: A -> B, idA: A -> int, idB: B -> int, sel: Option<int>)
    requires forall a :: idB(f(a)) == idA(a)
    ensures Without(Map(s, f), idB, sel) == Map(Without(s, idA, sel), f)
  {
    if s != [] {
      var m := Map(s, f);
      assert m[0] == f(s[0]) && m[1..] == Map(s[1..], f);
      WithoutMap(s[1..], f, idA, idB, sel);
    }
  }

  /** A commit aimed at a removed id finds nothing to change. */
  lemma MapWhereAfterWithout<T>(s: seq<T>, idOf: T -> int, id: int, f: T -> T)
    ensures MapWhere(Without(s, idOf, Some(id)), idOf, id, f) == Without(s, idOf, Some(id))
  {
  }

  /** Some element of `s` carries `id`. */
  ghost predicate HasId<T>(s: seq<T>, idOf: T -> int, id: int) {
    exists i :: 0 <= i < |s| && idOf(s[i]) == id
  }

  /** A list that keeps every id of `s` at the same position still carries each of them. */
  lemma HasIdKept<T>(s: seq<T>, r: seq<T>, idOf: T -> int, id: int)
    requires |s| <= |r|
    requires forall i :: 0 <= i < |s| ==> idOf(r[i]) == idOf(s[i])
    ensures HasId(s, idOf, id) ==> HasId(r, idOf, id)
  {
    if HasId(s, idOf, id) {
      var i :| 0 <= i < |s| && idOf(s[i]) == id;
      assert idOf(r[i]) == id;
    }
  }
}
