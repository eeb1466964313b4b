/**
 A JavaScript `Set` of web-contents ids, modelled as a duplicate-free sequence
 that keeps the insertion order: `Array.from(set)` and `set.forEach` visit the
 elements in the order in which they were first added.
 */
module JsSet {

  /** No id occurs twice. */
  predicate NoDup(xs: seq<int>) {
    forall i, j :: 0 <= i < j < |xs| ==> xs[i] != xs[j]
  }

  /** The ids of the set, forgetting the order. */
  function Elems(xs: seq<int>): set<int> {
    set x | x in xs
  }

  /** `set.add(x)`: appends `x` unless it is already present. */
  function Add(xs: seq<int>, x: int): (r: seq<int>)
    ensures forall y :: y in r <==> y in xs || y == x
    ensures xs <= r
    ensures NoDup(xs) ==> NoDup(r)
    ensures multiset(r) == if x in xs then multiset(xs) else multiset(xs) + multiset{x}
  {
    if x in xs then xs else xs + [x]
  }

  /** `set.delete(x)`: removes `x`; deleting an absent value changes nothing. */
  function Delete(xs: seq<int>, x: int): (r: seq<int>)
    ensures forall y :: y in r <==> y in xs && y != x
    ensures x !in xs ==> r == xs
    decreases |xs|
  {
    if |xs| == 0 then []
    else if xs[0] == x then Delete(xs[1..], x)
    else [xs[0]] + Delete(xs[1..], x)
  }

  /** Deleting drops every occurrence of the id and no other entry. */
  lemma {:induction false} DeleteCounts(xs: seq<int>, x: int)
    ensures multiset(Delete(xs, x)) == multiset(xs)[x := 0]
    decreases |xs|
  {
    if |xs| > 0 {
      DeleteCounts(xs[1..], x);
      assert xs == [xs[0]] + xs[1..];
    }
  }

  /** Deleting from a duplicate-free sequence keeps it duplicate-free. */
  lemma {:induction false} DeleteNoDup(xs: seq<int>, x: int)
    requires NoDup(xs)
    ensures NoDup(Delete(xs, x))
    decreases |xs|
  {
    if |xs| > 0 {
      NoDupTail(xs);
      DeleteNoDup(xs[1..], x);
      var rest := Delete(xs[1..], x);
      if xs[0] != x {
        assert xs[0] !in rest;
        assert Delete(xs, x) == [xs[0]] + rest;
      }
    }
  }

  /** The tail of a duplicate-free sequence is duplicate-free and does not
      hold its head. */
  lemma NoDupTail(xs: seq<int>)
    requires NoDup(xs) && |xs| > 0
    ensures NoDup(xs[1..]) && xs[0] !in xs[1..]
  {
  }

  /** Deleting an id that occurs once removes exactly that entry and keeps
      every other id in its order. */
  lemma {:induction false} DeleteOnce(before: seq<int>, x: int, after: seq<int>)
    requires x !in before && x !in after
    ensures Delete(before + [x] + after, x) == before + after
    decreases |before|
  {
    var xs := before + [x] + after;
    if |before| == 0 {
      assert xs[0] == x && xs[1..] == after;
      assert Delete(xs, x) == Delete(after, x);
    } else {
      var tail := before[1..] + [x] + after;
      assert xs[0] == before[0] && xs[1..] == tail;
      assert Delete(xs, x) == [before[0]] + Delete(tail, x);
      DeleteOnce(before[1..], x, after);
      assert [before[0]] + (before[1..] + after) == before + after;
    }
  }

  /** Deleting the element at position `k` of a duplicate-free sequence removes
      exactly that entry and keeps every other element in its order. */
  lemma DeleteAt(xs: seq<int>, k: nat)
    requires NoDup(xs)
    requires k < |xs|
    ensures Delete(xs, xs[k]) == xs[..k] + xs[k+1..]
  {
    var before, after := xs[..k], xs[k+1..];
    NoDupSplit(xs, k);
    assert xs == before + [xs[k]] + after;
    DeleteOnce(before, xs[k], after);
  }

  /** In a duplicate-free sequence, the element at `k` occurs neither before
      nor after position `k`. */
  lemma NoDupSplit(xs: seq<int>, k: nat)
    requires NoDup(xs)
    requires k < |xs|
    ensures xs[k] !in xs[..k] && xs[k] !in xs[k+1..]
  {
  }

  /** A duplicate-free sequence has as many entries as its set of ids. */
  lemma {:induction false} NoDupCard(xs: seq<int>)
    requires NoDup(xs)
    ensures |Elems(xs)| == |xs|
    decreases |xs|
  {
    if |xs| > 0 {
      NoDupTail(xs);
      NoDupCard(xs[1..]);
      assert xs == [xs[0]] + xs[1..];
      assert Elems(xs) == {xs[0]} + Elems(xs[1..]);
      assert xs[0] !in Elems(xs[1..]);
    }
  }

  /** A duplicate-free sequence counts each of its ids once. */
  lemma {:induction false} NoDupMultiset(xs: seq<int>, x: int)
    requires NoDup(xs)
    ensures multiset(xs)[x] == if x in xs then 1 else 0
    decreases |xs|
  {
    if |xs| > 0 {
      assert xs == [xs[0]] + xs[1..];
      NoDupTail(xs);
      NoDupMultiset(xs[1..], x);
    }
  }
}
