/**
 * `util.OrderedSet`: an insertion-ordered set that ignores values it has already seen,
 * kept as the sequence of values plus the set of values seen.
 */
module OrderedSets {

  predicate NoDuplicates<T(==)>(s: seq<T>) {
    forall i, j :: 0 <= i < j < |s| ==> s[i] != s[j]
  }

  /** The values of `s` at their first occurrence, in the order they first occur. */
  function Dedup<T(==)>(s: seq<T>): seq<T>
    decreases |s|
  {
    if s == [] then []
    else
      var d := Dedup(s[..|s| - 1]);
      if s[|s| - 1] in d then d else d + [s[|s| - 1]]
  }

  /** Deduplicating one more value appends it exactly when it is new. */
  lemma DedupSnoc<T>(s: seq<T>, x: T)
    ensures Dedup(s + [x]) == if x in Dedup(s) then Dedup(s) else Dedup(s) + [x]
  {
    assert (s + [x])[..|s|] == s;
  }

  /** The position of the first occurrence of `x` in `s`. */
  function FirstIndex<T(==)>(s: seq<T>, x: T): (i: nat)
    requires x in s
    ensures i < |s| && s[i] == x
    ensures forall j :: 0 <= j < i ==> s[j] != x
  {
    if s[0] == x then 0 else 1 + FirstIndex(s[1..], x)
  }

  lemma FirstIndexAppend<T>(s: seq<T>, x: T, y: T)
    requires y in s
    ensures FirstIndex(s + [x], y) == FirstIndex(s, y)
  {
    var i, k := FirstIndex(s + [x], y), FirstIndex(s, y);
    assert (s + [x])[k] == y;
  }

  lemma FirstIndexNew<T>(s: seq<T>, x: T)
    requires x !in s
    ensures FirstIndex(s + [x], x) == |s|
  {
    assert forall j :: 0 <= j < |s| ==> (s + [x])[j] == s[j];
  }

  /** Deduplication keeps exactly the values of its input. */
  lemma {:induction false} DedupMembers<T>(s: seq<T>)
    ensures forall x :: x in Dedup(s) <==> x in s
    decreases |s|
  {
    if s != [] {
      var init := s[..|s| - 1];
      DedupMembers(init);
      assert s == init + [s[|s| - 1]];
    }
  }

  /** Deduplication leaves no value twice. */
  lemma {:induction false} DedupNoDuplicates<T>(s: seq<T>)
    ensures NoDuplicates(Dedup(s))
    decreases |s|
  {
    if s != [] {
      DedupNoDuplicates(s[..|s| - 1]);
    }
  }

  /** Deduplication lists the values in the order of their first occurrence in the input. */
  lemma {:induction false} DedupFirstSeenOrder<T>(s: seq<T>)
    ensures forall x :: x in Dedup(s) ==> x in s
    ensures forall i, j :: 0 <= i < j < |Dedup(s)| ==>
              FirstIndex(s, Dedup(s)[i]) < FirstIndex(s, Dedup(s)[j])
    decreases |s|
  {
    DedupMembers(s);
    if s != [] {
      var init, x := s[..|s| - 1], s[|s| - 1];
      assert s == init + [x];
      DedupFirstSeenOrder(init);
      DedupMembers(init);
      forall y | y in Dedup(init) ensures FirstIndex(s, y) == FirstIndex(init, y) {
        FirstIndexAppend(init, x, y);
      }
      if x !in Dedup(init) {
        FirstSeenOrderSnoc(init, x);
      }
    }
  }

  /** Appending a new value to an order-preserving deduplication keeps it order-preserving. */
  lemma FirstSeenOrderSnoc<T>(init: seq<T>, x: T)
    requires x !in Dedup(init)
    requires forall y :: y in Dedup(init) <==> y in init
    requires forall y :: y in Dedup(init) ==> FirstIndex(init + [x], y) == FirstIndex(init, y)
    requires forall i, j :: 0 <= i < j < |Dedup(init)| ==>
               FirstIndex(init, Dedup(init)[i]) < FirstIndex(init, Dedup(init)[j])
    ensures forall i, j :: 0 <= i < j < |Dedup(init) + [x]| ==>
              FirstIndex(init + [x], (Dedup(init) + [x])[i]) < FirstIndex(init + [x], (Dedup(init) + [x])[j])
  {
    var d, d' := Dedup(init) + [x], Dedup(init);
    FirstIndexNew(init, x);
    forall i, j | 0 <= i < j < |d|
      ensures FirstIndex(init + [x], d[i]) < FirstIndex(init + [x], d[j])
    {
      assert d[i] == d'[i];
      if j < |d'| {
        assert d[j] == d'[j];
      } else {
        assert d[j] == x;
      }
    }
  }

  /** A sequence without duplicates is its own deduplication. */
  lemma {:induction false} DedupOfDistinct<T>(s: seq<T>)
    requires NoDuplicates(s)
    ensures Dedup(s) == s
    decreases |s|
  {
    if s != [] {
      var init := s[..|s| - 1];
      DedupOfDistinct(init);
      DedupMembers(init);
      assert s == init + [s[|s| - 1]];
    }
  }

  class OrderedSet<T(==)> {
    var items: seq<T>
    var seen: set<T>
    /** Every value passed to Add, in call order. */
    ghost var added: seq<T>

    ghost predicate Valid()
      reads this
    {
      items == Dedup(added) && seen == set x | x in items
    }

    /** `util.NewOrderedSet`. */
    constructor ()
      ensures Valid() && added == [] && items == []
    {
      items := [];
      seen := {};
      added := [];
    }

    /** Appends `x` unless it is already present. */
    method Add(x: T)
      requires Valid()
      modifies this
      ensures Valid() && added == old(added) + [x]
      ensures items == if x in old(items) then old(items) else old(items) + [x]
    {
      DedupSnoc(added, x);
      if x !in seen {
        items := items + [x];
        seen := seen + {x};
      }
      added := added + [x];
    }

    /** The distinct values added so far, in the order each was first added. */
    method Values() returns (vs: seq<T>)
      requires Valid()
      ensures vs == items == Dedup(added)
      ensures NoDuplicates(vs) && forall x :: x in vs <==> x in added
    {
      DedupNoDuplicates(added);
      DedupMembers(added);
      vs := items;
    }
  }
}
