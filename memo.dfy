/** The Memoize decorator: a cache from argument tuples to results, filled on first use. */
module Memo {

  class Memoize<A(==,!new), R> {
    const f: A -> R
    var memo: map<A, R>
    /** The arguments `f` has been applied to, in order (one application per cache miss). */
    ghost var applied: seq<A>

    /** Every cached result is f's result, and f ran exactly once for each cached argument. */
    ghost predicate Valid()
      reads this
    {
      && (forall a :: a in memo ==> memo[a] == f(a))
      && (forall a :: a in memo <==> a in applied)
      && (forall i, j :: 0 <= i < j < |applied| ==> applied[i] != applied[j])
    }

    constructor (f: A -> R)
      ensures Valid()
      ensures this.f == f && memo == map[] && applied == []
    {
      this.f := f;
      memo := map[];
      applied := [];
    }

    /** __call__: answer from the cache, applying f and caching its result on a miss. */
    method Call(args: A) returns (r: R)
      requires Valid()
      modifies this
      ensures Valid()
      ensures r == f(args)
      ensures memo == old(memo)[args := f(args)]
      ensures applied == if args in old(memo) then old(applied) else old(applied) + [args]
    {
      if args !in memo {
        memo := memo[args := f(args)];
        applied := applied + [args];
      }
      r := memo[args];
    }
  }
}
