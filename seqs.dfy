/** Order-preserving selection from a sequence. */
module Seqs {

  /** The elements of `s` that satisfy `keep`, in their original order. */
  function Filter<T(!new)>(s: seq<T>, keep: T -> bool): (r: seq<T>)
    ensures |r| <= |s|
    ensures forall x :: x in r <==> x in s && keep(x)
  {
    if s == [] then []
    else (if keep(s[0]) then [s[0]] else []) + Filter(s[1..], keep)
  }

  /** Selecting from a concatenation is concatenating the selections. */
  lemma {:induction false} FilterConcat<T(!new)>(a: seq<T>, b: seq<T>, keep: T -> bool)
    ensures Filter(a + b, keep) == Filter(a, keep) + Filter(b, keep)
  {
    if a == [] {
      assert a + b == b;
    } else {
      assert (a + b)[1..] == a[1..] + b;
      FilterConcat(a[1..], b, keep);
    }
  }

  /** Nothing is selected from elements that are all dropped. */
  lemma {:induction false} FilterNone<T(!new)>(b: seq<T>, keep: T -> bool)
    requires forall x :: x in b ==> !keep(x)
    ensures Filter(b, keep) == []
  {
    if b != [] {
      assert b[0] in b;
      assert forall x :: x in b[1..] ==> x in b;
      FilterNone(b[1..], keep);
    }
  }

  /** Selecting from elements that are all kept selects them all. */
  lemma {:induction false} FilterAllKept<T(!new)>(b: seq<T>, keep: T -> bool)
    requires forall x :: x in b ==> keep(x)
    ensures Filter(b, keep) == b
  {
    if b != [] {
      assert b[0] in b;
      assert forall x :: x in b[1..] ==> x in b;
      FilterAllKept(b[1..], keep);
      assert b == [b[0]] + b[1..];
    }
  }

  /** Appending elements that are all dropped does not change the selection. */
  lemma FilterAppendDropped<T(!new)>(a: seq<T>, b: seq<T>, keep: T -> bool)
    requires forall x :: x in b ==> !keep(x)
    ensures Filter(a + b, keep) == Filter(a, keep)
  {
    FilterConcat(a, b, keep);
    FilterNone(b, keep);
  }

  /** Appending one kept element appends it to the selection. */
  lemma FilterAppendKept<T(!new)>(a: seq<T>, x: T, keep: T -> bool)
    requires keep(x)
    ensures Filter(a + [x], keep) == Filter(a, keep) + [x]
  {
    FilterConcat(a, [x], keep);
    assert Filter([x], keep) == [x] + Filter([], keep);
  }

  /** Concatenation is associative (stated for use as a proof step in long contexts). */
  lemma ConcatAssoc<T>(a: seq<T>, b: seq<T>, c: seq<T>)
    ensures (a + b) + c == a + (b + c)
  {
  }
}
