/**
 * The two shapes of loop the adapter runs over its rows: stop at the first row that fails
 * a check, and turn every row into one output, in row order.
 */
module Scans {
  import opened Wrappers

  /** The first error `check` reports along `xs`, or None when every element passes. */
  function FirstError<T, E>(check: T -> Option<E>, xs: seq<T>): Option<E>
    decreases |xs|
  {
    if xs == [] then None
    else
      var prev := FirstError(check, xs[..|xs| - 1]);
      if prev.Some? then prev else check(xs[|xs| - 1])
  }

  /** `f` applied to every element of `xs`, in order. */
  function MapSeq<T, U>(f: T -> U, xs: seq<T>): seq<U>
    decreases |xs|
  {
    if xs == [] then [] else MapSeq(f, xs[..|xs| - 1]) + [f(xs[|xs| - 1])]
  }

  /** An error found in a prefix is the error of the whole sequence. */
  lemma {:induction false} FirstErrorStays<T, E>(check: T -> Option<E>, xs: seq<T>, i: nat)
    requires i <= |xs| && FirstError(check, xs[..i]).Some?
    ensures FirstError(check, xs) == FirstError(check, xs[..i])
    decreases |xs|
  {
    if i < |xs| {
      assert xs[..|xs| - 1][..i] == xs[..i];
      FirstErrorStays(check, xs[..|xs| - 1], i);
    } else {
      assert xs[..i] == xs;
    }
  }

  /** A prefix that passed, followed by one more element, reports that element's error. */
  lemma FirstErrorNext<T, E>(check: T -> Option<E>, xs: seq<T>, i: nat)
    requires i < |xs| && FirstError(check, xs[..i]).None?
    ensures FirstError(check, xs[..i + 1]) == check(xs[i])
  {
    assert xs[..i + 1][..i] == xs[..i];
  }

  /** There is no error exactly when every element passes the check. */
  lemma {:induction false} FirstErrorNone<T, E>(check: T -> Option<E>, xs: seq<T>)
    ensures FirstError(check, xs).None? <==> forall i :: 0 <= i < |xs| ==> check(xs[i]).None?
    decreases |xs|
  {
    if xs != [] {
      var init := xs[..|xs| - 1];
      FirstErrorNone(check, init);
      assert forall i :: 0 <= i < |init| ==> init[i] == xs[i];
    }
  }

  /** An error is the error of the first element that fails the check. */
  lemma {:induction false} FirstErrorFirst<T, E>(check: T -> Option<E>, xs: seq<T>)
    requires FirstError(check, xs).Some?
    ensures exists k :: 0 <= k < |xs| && check(xs[k]).Some?
              && (forall j :: 0 <= j < k ==> check(xs[j]).None?)
              && FirstError(check, xs) == check(xs[k])
    decreases |xs|
  {
    var init := xs[..|xs| - 1];
    assert forall i :: 0 <= i < |init| ==> init[i] == xs[i];
    if FirstError(check, init).Some? {
      FirstErrorFirst(check, init);
      var k :| 0 <= k < |init| && check(init[k]).Some?
              && (forall j :: 0 <= j < k ==> check(init[j]).None?)
              && FirstError(check, init) == check(init[k]);
      assert xs[k] == init[k];
    } else {
      FirstErrorNone(check, init);
    }
  }

  lemma {:induction false} MapSeqLength<T, U>(f: T -> U, xs: seq<T>)
    ensures |MapSeq(f, xs)| == |xs|
    decreases |xs|
  {
    if xs != [] {
      MapSeqLength(f, xs[..|xs| - 1]);
    }
  }

  /** Element `i` of the output is `f` of element `i` of the input. */
  lemma {:induction false} MapSeqAt<T, U>(f: T -> U, xs: seq<T>, i: nat)
    requires i < |xs|
    ensures |MapSeq(f, xs)| == |xs|
    ensures MapSeq(f, xs)[i] == f(xs[i])
    decreases |xs|
  {
    var init := xs[..|xs| - 1];
    MapSeqLength(f, xs);
    MapSeqLength(f, init);
    if i < |init| {
      MapSeqAt(f, init, i);
      assert init[i] == xs[i];
    }
  }

  /** A value is an output exactly when it is the image of some element. */
  lemma MapSeqMembers<T, U>(f: T -> U, xs: seq<T>, y: U)
    ensures y in MapSeq(f, xs) <==> exists i :: 0 <= i < |xs| && y == f(xs[i])
  {
    MapSeqLength(f, xs);
    if y in MapSeq(f, xs) {
      var i :| 0 <= i < |MapSeq(f, xs)| && MapSeq(f, xs)[i] == y;
      MapSeqAt(f, xs, i);
    }
    if exists i :: 0 <= i < |xs| && y == f(xs[i]) {
      var i :| 0 <= i < |xs| && y == f(xs[i]);
      MapSeqAt(f, xs, i);
    }
  }

  /** Mapping one more element appends its image. */
  lemma MapSeqSnoc<T, U>(f: T -> U, xs: seq<T>, i: nat)
    requires i < |xs|
    ensures MapSeq(f, xs[..i + 1]) == MapSeq(f, xs[..i]) + [f(xs[i])]
  {
    assert xs[..i + 1][..i] == xs[..i];
  }
}
