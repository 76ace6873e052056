/**
 * Lists of records identified by a string `id`: the `some`, `findIndex` and
 * `filter` calls the storefront makes on its cart, favourites, notification
 * and admin lists. The record type is a parameter; `idOf` reads its id.
 */
module KeyedLists {

  /** `s.some(x => x.id === id)`. */
  function HasId<T>(s: seq<T>, idOf: T -> string, id: string): (b: bool)
    ensures b <==> exists i :: 0 <= i < |s| && idOf(s[i]) == id
  {
    if s == [] then false
    else if idOf(s[0]) == id then true
    else
      var b := HasId(s[1..], idOf, id);
      assert b ==> exists i :: 0 < i < |s| && idOf(s[i]) == id;
      b
  }

  /** `s.findIndex(x => x.id === id)`: the first index holding `id`, or -1. */
  function FindIndex<T>(s: seq<T>, idOf: T -> string, id: string): (k: int)
    ensures -1 <= k < |s|
    ensures k == -1 <==> !HasId(s, idOf, id)
    ensures k >= 0 ==> idOf(s[k]) == id
    ensures forall j :: 0 <= j < |s| && (k == -1 || j < k) ==> idOf(s[j]) != id
  {
    if s == [] then -1
    else if idOf(s[0]) == id then 0
    else
      var k := FindIndex(s[1..], idOf, id);
      if k == -1 then -1 else k + 1
  }

  /** `s.filter(x => x.id !== id)`: every record holding `id` removed. */
  function RemoveId<T(==)>(s: seq<T>, idOf: T -> string, id: string): (r: seq<T>)
    ensures |r| <= |s|
    ensures !HasId(r, idOf, id)
    ensures forall i :: 0 <= i < |r| ==> r[i] in s
    ensures forall i :: 0 <= i < |s| && idOf(s[i]) != id ==> s[i] in r
    ensures !HasId(s, idOf, id) ==> r == s
    ensures HasId(s, idOf, id) ==> |r| < |s|
  {
    if s == [] then []
    else if idOf(s[0]) == id then RemoveId(s[1..], idOf, id)
    else
      var r := [s[0]] + RemoveId(s[1..], idOf, id);
      assert s == [s[0]] + s[1..];
      r
  }

  /** `r` is `s` with some records left out and the rest in their original order. */
  predicate IsSublist<T(==)>(r: seq<T>, s: seq<T>) {
    if r == [] then true
    else if s == [] then false
    else (r[0] == s[0] && IsSublist(r[1..], s[1..])) || IsSublist(r, s[1..])
  }

  /** Removal keeps the surviving records in their original order. */
  lemma {:induction false} RemoveIdIsSublist<T>(s: seq<T>, idOf: T -> string, id: string)
    ensures IsSublist(RemoveId(s, idOf, id), s)
  {
    if s != [] {
      RemoveIdIsSublist(s[1..], idOf, id);
      var r := RemoveId(s, idOf, id);
      if idOf(s[0]) != id {
        assert r[1..] == RemoveId(s[1..], idOf, id);
      } else {
        assert r == RemoveId(s[1..], idOf, id);
      }
    }
  }

  /** Filtering distributes over concatenation. */
  lemma {:induction false} RemoveIdAppend<T>(a: seq<T>, b: seq<T>, idOf: T -> string, id: string)
    ensures RemoveId(a + b, idOf, id) == RemoveId(a, idOf, id) + RemoveId(b, idOf, id)
  {
    if a != [] {
      assert (a + b)[1..] == a[1..] + b;
      assert (a + b)[0] == a[0];
      RemoveIdAppend(a[1..], b, idOf, id);
    } else {
      assert a + b == b;
    }
  }

  /** No two records share an id. */
  predicate UniqueIds<T>(s: seq<T>, idOf: T -> string) {
    forall i, j :: 0 <= i < j < |s| ==> idOf(s[i]) != idOf(s[j])
  }

  /** Filtering keeps ids unique. */
  lemma {:induction false} RemoveIdKeepsUnique<T>(s: seq<T>, idOf: T -> string, id: string)
    requires UniqueIds(s, idOf)
    ensures UniqueIds(RemoveId(s, idOf, id), idOf)
  {
    if s != [] {
      var tail := s[1..];
      assert UniqueIds(tail, idOf) by {
        forall i, j | 0 <= i < j < |tail| ensures idOf(tail[i]) != idOf(tail[j]) {
          assert tail[i] == s[i + 1] && tail[j] == s[j + 1];
        }
      }
      RemoveIdKeepsUnique(tail, idOf, id);
      if idOf(s[0]) != id {
        var rest := RemoveId(tail, idOf, id);
        var r := [s[0]] + rest;
        assert r == RemoveId(s, idOf, id);
        forall i, j | 0 <= i < j < |r| ensures idOf(r[i]) != idOf(r[j]) {
          assert r[j] == rest[j - 1];
          if i == 0 {
            assert rest[j - 1] in tail;
            var k :| 0 <= k < |tail| && tail[k] == rest[j - 1];
            assert s[k + 1] == tail[k];
          } else {
            assert r[i] == rest[i - 1];
          }
        }
      }
    }
  }

  /** Deleting the record at `k` (`splice(k, 1)`) from a list with unique ids
      keeps them unique and leaves no record with the deleted id. */
  lemma DeleteAtKeepsUnique<T>(s: seq<T>, idOf: T -> string, k: nat)
    requires UniqueIds(s, idOf) && k < |s|
    ensures UniqueIds(s[..k] + s[k + 1..], idOf)
    ensures !HasId(s[..k] + s[k + 1..], idOf, idOf(s[k]))
  {
    var r := s[..k] + s[k + 1..];
    assert forall i :: 0 <= i < |r| ==> r[i] == if i < k then s[i] else s[i + 1];
  }

  /** Appending a record whose id is absent keeps ids unique. */
  lemma AppendKeepsUnique<T>(s: seq<T>, idOf: T -> string, x: T)
    requires UniqueIds(s, idOf) && !HasId(s, idOf, idOf(x))
    ensures UniqueIds(s + [x], idOf)
  {
    var r := s + [x];
    assert forall i :: 0 <= i < |s| ==> r[i] == s[i];
  }

  /** `s.filter(p)`: the records satisfying `p`, in their original order.
      A record is kept exactly when it satisfies `p`; when every record
      does, the list is unchanged, and when none does, nothing is left. */
  function Filter<T(==,!new)>(s: seq<T>, p: T -> bool): (r: seq<T>)
    ensures IsSublist(r, s)
    ensures forall x :: x in r <==> x in s && p(x)
    ensures (forall i :: 0 <= i < |s| ==> p(s[i])) ==> r == s
    ensures (forall i :: 0 <= i < |s| ==> !p(s[i])) ==> r == []
  {
    if s == [] then []
    else
      var rest := Filter(s[1..], p);
      assert forall i :: 1 <= i < |s| ==> s[i] == s[1..][i - 1];
      assert s == [s[0]] + s[1..];
      if p(s[0]) then
        var r := [s[0]] + rest;
        assert r[1..] == rest;
        r
      else
        rest
  }

  /** `filter` drops no copy of a record it keeps: each record occurs in the
      result exactly as often as in the list when it passes the test, and
      not at all otherwise. */
  lemma {:induction false} FilterKeepsCopies<T(!new)>(s: seq<T>, p: T -> bool)
    ensures forall x :: multiset(Filter(s, p))[x] == if p(x) then multiset(s)[x] else 0
  {
    if s != [] {
      FilterKeepsCopies(s[1..], p);
      assert s == [s[0]] + s[1..];
      assert multiset(s) == multiset{s[0]} + multiset(s[1..]);
      var rest := Filter(s[1..], p);
      if p(s[0]) {
        assert Filter(s, p) == [s[0]] + rest;
        assert multiset(Filter(s, p)) == multiset{s[0]} + multiset(rest);
      } else {
        assert Filter(s, p) == rest;
      }
    }
  }

  /** Removing an id is the `filter` whose test is "another id". */
  lemma {:induction false} RemoveIdIsFilter<T(!new)>(s: seq<T>, idOf: T -> string, id: string)
    ensures RemoveId(s, idOf, id) == Filter(s, x => idOf(x) != id)
  {
    if s != [] {
      RemoveIdIsFilter(s[1..], idOf, id);
    }
  }

  /** Removing an id drops every copy of the records holding it and keeps
      every copy of the others. */
  lemma RemoveIdKeepsCopies<T(!new)>(s: seq<T>, idOf: T -> string, id: string)
    ensures forall x :: multiset(RemoveId(s, idOf, id))[x] == if idOf(x) != id then multiset(s)[x] else 0
  {
    RemoveIdIsFilter(s, idOf, id);
    FilterKeepsCopies(s, x => idOf(x) != id);
  }
}
