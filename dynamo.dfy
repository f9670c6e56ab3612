/**
 * The part of DynamoDB the handler relies on: string sort keys ordered
 * lexicographically, a partition held as a sequence of items sorted by sort
 * key, a paged Query (ExclusiveStartKey, Limit, FilterExpression) answering
 * with Items and an optional LastEvaluatedKey, and an upsert by key.
 */
module Dynamo {
  import opened Wrappers
  import opened Seqs

  /** Primary key of an item: partition (hash) key and sort (range) key. */
  datatype Key = Key(partition: string, sort: string)

  /** One page of a Query: the matching items and the LastEvaluatedKey, if any. */
  datatype Page<T> = Page(items: seq<T>, lastKey: Option<Key>)

  /**
   * Strict lexicographic order on strings.  DynamoDB compares string keys
   * by their UTF-8 bytes, which orders them as their code points do.
   */
  predicate Below(a: string, b: string)
    decreases |a|
  {
    if |a| == 0 then |b| > 0
    else if |b| == 0 then false
    else if a[0] == b[0] then Below(a[1..], b[1..])
    else a[0] < b[0]
  }

  lemma {:induction false} BelowIrreflexive(a: string)
    ensures !Below(a, a)
    decreases |a|
  {
    if |a| > 0 {
      BelowIrreflexive(a[1..]);
    }
  }

  lemma {:induction false} BelowTransitive(a: string, b: string, c: string)
    requires Below(a, b) && Below(b, c)
    ensures Below(a, c)
    decreases |a|
  {
    if |a| > 0 && |b| > 0 && |c| > 0 && a[0] == b[0] && b[0] == c[0] {
      BelowTransitive(a[1..], b[1..], c[1..]);
    }
  }

  lemma {:induction false} BelowTotal(a: string, b: string)
    ensures a == b || Below(a, b) || Below(b, a)
    decreases |a|
  {
    if |a| > 0 && |b| > 0 && a[0] == b[0] {
      BelowTotal(a[1..], b[1..]);
      if a[1..] == b[1..] {
        assert a == [a[0]] + a[1..] && b == [b[0]] + b[1..];
      }
    }
  }

  lemma {:induction false} BelowAsymmetric(a: string, b: string)
    requires Below(a, b)
    ensures !Below(b, a)
  {
    if Below(b, a) {
      BelowTransitive(a, b, a);
      BelowIrreflexive(a);
    }
  }

  /** Items of a partition in strictly increasing sort-key order (sort keys are unique). */
  ghost predicate StrictlySorted<T(!new)>(s: seq<T>, key: T -> string) {
    forall i, j :: 0 <= i < j < |s| ==> Below(key(s[i]), key(s[j]))
  }

  /** The items whose sort key lies strictly after `k`: what an ExclusiveStartKey skips to. */
  function AfterKey<T(!new)>(s: seq<T>, key: T -> string, k: string): (r: seq<T>)
    ensures |r| <= |s|
    ensures forall x :: x in r <==> x in s && Below(k, key(x))
  {
    if s == [] then []
    else (if Below(k, key(s[0])) then [s[0]] else []) + AfterKey(s[1..], key, k)
  }

  /** The items a Query may still evaluate, from the first one or after the start key. */
  function Remaining<T(!new)>(s: seq<T>, key: T -> string, start: Option<string>): seq<T> {
    match start
    case None => s
    case Some(k) => AfterKey(s, key, k)
  }

  /** The items a Query with this Limit reads, before its FilterExpression is applied. */
  function Evaluated<T(!new)>(s: seq<T>, key: T -> string, start: Option<string>, limit: nat): seq<T> {
    var rest := Remaining(s, key, start);
    if |rest| <= limit then rest else rest[..limit]
  }

  /**
   * Query on partition `p` (held as `s`): read up to `limit` items after the
   * start key, keep those that pass the FilterExpression `keep`, and report
   * the key of the last item read when the Limit was reached.
   */
  function Query<T(!new)>(p: string, s: seq<T>, key: T -> string, start: Option<string>, limit: nat, keep: T -> bool): (r: Page<T>)
    requires limit > 0
    ensures |r.items| <= limit
    ensures forall x :: x in r.items ==> x in s && keep(x)
    ensures start.Some? ==> forall x :: x in r.items ==> Below(start.value, key(x))
    ensures r.lastKey.Some? <==> |Remaining(s, key, start)| >= limit
    ensures r.lastKey.Some? ==> r.lastKey.value.partition == p
    ensures r.lastKey.None? ==> r.items == Filter(Remaining(s, key, start), keep)
  {
    var rest := Remaining(s, key, start);
    var read := Evaluated(s, key, start, limit);
    assert forall x :: x in read ==> x in rest;
    Page(Filter(read, keep), if |rest| >= limit then Some(Key(p, key(rest[limit - 1]))) else None)
  }

  /** If every item lies after `k`, an ExclusiveStartKey of `k` skips nothing. */
  lemma {:induction false} AfterKeyAllAbove<T(!new)>(s: seq<T>, key: T -> string, k: string)
    requires forall i :: 0 <= i < |s| ==> Below(k, key(s[i]))
    ensures AfterKey(s, key, k) == s
  {
    if s != [] {
      AfterKeyAllAbove(s[1..], key, k);
      assert s == [s[0]] + s[1..];
    }
  }

  /** Starting after the key of the item at index `m` resumes exactly at index `m + 1`. */
  lemma {:induction false} AfterKeyAt<T(!new)>(s: seq<T>, key: T -> string, m: nat)
    requires StrictlySorted(s, key) && m < |s|
    ensures AfterKey(s, key, key(s[m])) == s[m + 1..]
  {
    if m == 0 {
      BelowIrreflexive(key(s[0]));
      AfterKeyAllAbove(s[1..], key, key(s[0]));
    } else {
      BelowAsymmetric(key(s[0]), key(s[m]));
      assert s[1..][m - 1] == s[m];
      AfterKeyAt(s[1..], key, m - 1);
      assert s[1..][m..] == s[m + 1..];
    }
  }

  /** In a sorted partition, the items after any start key form a suffix. */
  lemma {:induction false} AfterKeyIsSuffix<T(!new)>(s: seq<T>, key: T -> string, k: string)
    requires StrictlySorted(s, key)
    ensures |AfterKey(s, key, k)| <= |s|
    ensures AfterKey(s, key, k) == s[|s| - |AfterKey(s, key, k)|..]
  {
    if s == [] {
      assert AfterKey(s, key, k) == [];
    } else if Below(k, key(s[0])) {
      AfterKeyFromHead(s, key, k);
      assert s[0..] == s;
    } else {
      var u := AfterKey(s[1..], key, k);
      assert AfterKey(s, key, k) == u;
      SortedTail(s, key);
      AfterKeyIsSuffix(s[1..], key, k);
      TailSuffix(s, |u|);
    }
  }

  /** When the first item lies after `k`, so does every item, and nothing is skipped. */
  lemma AfterKeyFromHead<T(!new)>(s: seq<T>, key: T -> string, k: string)
    requires StrictlySorted(s, key) && s != [] && Below(k, key(s[0]))
    ensures AfterKey(s, key, k) == s
  {
    forall i | 0 <= i < |s[1..]|
      ensures Below(k, key(s[1..][i]))
    {
      BelowTransitive(k, key(s[0]), key(s[i + 1]));
    }
    AfterKeyAllAbove(s[1..], key, k);
    assert s == [s[0]] + s[1..];
  }

  /** A suffix of the tail is the suffix of the same length of the whole. */
  lemma TailSuffix<T>(s: seq<T>, n: nat)
    requires s != [] && n <= |s| - 1
    ensures s[1..][|s| - 1 - n..] == s[|s| - n..]
  {
  }

  /** The remaining items are a suffix of the partition, whatever the start key. */
  lemma RemainingIsSuffix<T(!new)>(s: seq<T>, key: T -> string, start: Option<string>)
    requires StrictlySorted(s, key)
    ensures |Remaining(s, key, start)| <= |s|
    ensures Remaining(s, key, start) == s[|s| - |Remaining(s, key, start)|..]
  {
    if start.Some? {
      AfterKeyIsSuffix(s, key, start.value);
    }
  }

  /** Resuming after the key of the last item read leaves exactly the items not yet read. */
  lemma ResumeRemaining<T(!new)>(s: seq<T>, key: T -> string, start: Option<string>, limit: nat)
    requires limit > 0 && StrictlySorted(s, key)
    requires |Remaining(s, key, start)| >= limit
    ensures var rest := Remaining(s, key, start);
      Remaining(s, key, Some(key(rest[limit - 1]))) == rest[limit..]
  {
    var rest := Remaining(s, key, start);
    RemainingIsSuffix(s, key, start);
    var i := |s| - |rest|;
    assert rest == s[i..];
    var m := i + limit - 1;
    SuffixShift(s, i, limit);
    assert rest[limit - 1] == s[m] && rest[limit..] == s[m + 1..];
    AfterKeyAt(s, key, m);
    assert Remaining(s, key, Some(key(rest[limit - 1]))) == AfterKey(s, key, key(s[m]));
  }

  /** Indexing into a suffix `s[i..]` is indexing into `s` shifted by `i`. */
  lemma SuffixShift<T>(s: seq<T>, i: nat, n: nat)
    requires 0 < n && i + n <= |s|
    ensures s[i..][n - 1] == s[i + n - 1]
    ensures s[i..][n..] == s[i + n..]
  {
  }

  /**
   * Pagination is seamless: resuming after the LastEvaluatedKey leaves
   * exactly the items this page did not read, so paging never skips or
   * repeats an item.
   */
  lemma ResumeAfterLastKey<T(!new)>(p: string, s: seq<T>, key: T -> string, start: Option<string>, limit: nat, keep: T -> bool)
    requires limit > 0 && StrictlySorted(s, key)
    requires Query(p, s, key, start, limit, keep).lastKey.Some?
    ensures var next := Query(p, s, key, start, limit, keep).lastKey.value.sort;
      Remaining(s, key, start) == Evaluated(s, key, start, limit) + Remaining(s, key, Some(next))
  {
    LastKeyOfQuery(p, s, key, start, limit, keep);
    ResumeRemaining(s, key, start, limit);
    EvaluatedPrefix(s, key, start, limit);
  }

  /** A LastEvaluatedKey names the last item the page read. */
  lemma LastKeyOfQuery<T(!new)>(p: string, s: seq<T>, key: T -> string, start: Option<string>, limit: nat, keep: T -> bool)
    requires limit > 0
    requires Query(p, s, key, start, limit, keep).lastKey.Some?
    ensures |Remaining(s, key, start)| >= limit
    ensures Query(p, s, key, start, limit, keep).lastKey.value.sort == key(Remaining(s, key, start)[limit - 1])
  {
  }

  /** A page that reaches the Limit reads exactly the first `limit` remaining items. */
  lemma EvaluatedPrefix<T(!new)>(s: seq<T>, key: T -> string, start: Option<string>, limit: nat)
    requires |Remaining(s, key, start)| >= limit
    ensures var rest := Remaining(s, key, start);
      rest == Evaluated(s, key, start, limit) + rest[limit..]
  {
    var rest := Remaining(s, key, start);
    assert rest == rest[..limit] + rest[limit..];
  }

  /**
   * A page's items, followed by the matches still to come after its
   * LastEvaluatedKey, are exactly the remaining items that pass the filter,
   * in key order: a page delivers the first matches, and the next page
   * delivers the rest, so no match is skipped or delivered twice.
   */
  lemma QueryResumes<T(!new)>(p: string, s: seq<T>, key: T -> string, start: Option<string>, limit: nat, keep: T -> bool)
    requires limit > 0 && StrictlySorted(s, key)
    ensures var page := Query(p, s, key, start, limit, keep);
      Filter(Remaining(s, key, start), keep)
      == page.items + (if page.lastKey.Some? then Filter(Remaining(s, key, Some(page.lastKey.value.sort)), keep) else [])
  {
    var page := Query(p, s, key, start, limit, keep);
    if page.lastKey.Some? {
      var next := page.lastKey.value.sort;
      ResumeAfterLastKey(p, s, key, start, limit, keep);
      FilterConcat(Evaluated(s, key, start, limit), Remaining(s, key, Some(next)), keep);
    }
  }

  /** No item of a page lies after its LastEvaluatedKey: the page read up to that key and no further. */
  lemma QueryItemsUpToLastKey<T(!new)>(p: string, s: seq<T>, key: T -> string, start: Option<string>, limit: nat, keep: T -> bool)
    requires limit > 0 && StrictlySorted(s, key)
    requires Query(p, s, key, start, limit, keep).lastKey.Some?
    ensures var page := Query(p, s, key, start, limit, keep);
      forall x :: x in page.items ==> !Below(page.lastKey.value.sort, key(x))
  {
    var rest := Remaining(s, key, start);
    LastKeyOfQuery(p, s, key, start, limit, keep);
    RemainingIsSuffix(s, key, start);
    SortedSuffix(s, key, |s| - |rest|);
    assert Evaluated(s, key, start, limit) == rest[..limit];
    PrefixUpToLast(rest, key, limit);
  }

  /** A suffix of a sorted sequence is sorted. */
  lemma SortedSuffix<T(!new)>(s: seq<T>, key: T -> string, off: nat)
    requires StrictlySorted(s, key) && off <= |s|
    ensures StrictlySorted(s[off..], key)
  {
    forall i, j | 0 <= i < j < |s[off..]| ensures Below(key(s[off..][i]), key(s[off..][j])) {
      assert s[off..][i] == s[off + i] && s[off..][j] == s[off + j];
    }
  }

  /** No item of the first `n` of a sorted sequence lies after the n-th one's key. */
  lemma PrefixUpToLast<T(!new)>(s: seq<T>, key: T -> string, n: nat)
    requires StrictlySorted(s, key) && 0 < n <= |s|
    ensures forall x :: x in s[..n] ==> !Below(key(s[n - 1]), key(x))
  {
    var k := key(s[n - 1]);
    forall x | x in s[..n] ensures !Below(k, key(x)) {
      var i :| 0 <= i < n && s[..n][i] == x;
      if i < n - 1 {
        assert Below(key(s[i]), k);
        BelowAsymmetric(key(x), k);
      } else {
        BelowIrreflexive(k);
      }
    }
  }

  /** A strictly sorted sequence holds its head only once. */
  lemma SortedHeadOnce<T(!new)>(s: seq<T>, key: T -> string)
    requires StrictlySorted(s, key) && s != []
    ensures forall x :: x in s[1..] <==> x in s && x != s[0]
  {
    forall x | x in s[1..] ensures x != s[0] {
      var i :| 0 <= i < |s[1..]| && s[1..][i] == x;
      assert Below(key(s[0]), key(s[i + 1]));
      BelowIrreflexive(key(s[0]));
    }
  }

  /** Two strictly sorted sequences with the same items are the same sequence. */
  lemma {:induction false} SortedSameItems<T(!new)>(a: seq<T>, b: seq<T>, key: T -> string)
    requires StrictlySorted(a, key) && StrictlySorted(b, key)
    requires forall x :: x in a <==> x in b
    ensures a == b
    decreases |a|
  {
    if a != [] {
      assert a[0] in b;
    }
    if b != [] {
      assert b[0] in a;
    }
    if a != [] {
      if a[0] != b[0] {
        assert a[0] in b && b[0] in a;
        var i :| 0 <= i < |b| && b[i] == a[0];
        var j :| 0 <= j < |a| && a[j] == b[0];
        assert Below(key(b[0]), key(a[0])) && Below(key(a[0]), key(b[0]));
        BelowAsymmetric(key(b[0]), key(a[0]));
      }
      SortedHeadOnce(a, key);
      SortedHeadOnce(b, key);
      SortedTail(a, key);
      SortedTail(b, key);
      SortedSameItems(a[1..], b[1..], key);
      assert a == [a[0]] + a[1..] && b == [b[0]] + b[1..];
    }
  }

  /** The items after a key of a sorted partition are in key order too. */
  lemma AfterKeySorted<T(!new)>(s: seq<T>, key: T -> string, k: string)
    requires StrictlySorted(s, key)
    ensures StrictlySorted(AfterKey(s, key, k), key)
  {
    AfterKeyIsSuffix(s, key, k);
    SortedSuffix(s, key, |s| - |AfterKey(s, key, k)|);
  }

  /**
   * The items of successive pages, each resuming after the previous page's
   * LastEvaluatedKey, until a page carries none: exactly the remaining items
   * that pass the filter, in key order, each once.
   */
  function PagedItems<T(!new)>(p: string, s: seq<T>, key: T -> string, start: Option<string>, limit: nat, keep: T -> bool): (r: seq<T>)
    requires limit > 0 && StrictlySorted(s, key)
    ensures r == Filter(Remaining(s, key, start), keep)
    decreases |Remaining(s, key, start)|
  {
    var page := Query(p, s, key, start, limit, keep);
    QueryResumes(p, s, key, start, limit, keep);
    if page.lastKey.None? then page.items
    else
      LastKeyOfQuery(p, s, key, start, limit, keep);
      ResumeRemaining(s, key, start, limit);
      page.items + PagedItems(p, s, key, Some(page.lastKey.value.sort), limit, keep)
  }

  /**
   * How many successive pages (each resuming after the previous page's
   * LastEvaluatedKey) it takes until a page carries no LastEvaluatedKey.
   * A page that reads exactly the last item still carries a key, so this
   * is one more than the number of full pages.
   */
  function PagesUntilExhausted<T(!new)>(p: string, s: seq<T>, key: T -> string, start: Option<string>, limit: nat, keep: T -> bool): (n: nat)
    requires limit > 0 && StrictlySorted(s, key)
    ensures n == |Remaining(s, key, start)| / limit + 1
    decreases |Remaining(s, key, start)|
  {
    var page := Query(p, s, key, start, limit, keep);
    var left := |Remaining(s, key, start)|;
    if page.lastKey.None? then
      DivUnique(left, limit, 0, left);
      1
    else
      ResumeShrinks(p, s, key, start, limit, keep);
      DivStep(left, limit);
      var later := PagesUntilExhausted(p, s, key, Some(page.lastKey.value.sort), limit, keep);
      assert later == (left - limit) / limit + 1;
      1 + later
  }

  /** Resuming after a LastEvaluatedKey leaves `limit` fewer items to read. */
  lemma ResumeShrinks<T(!new)>(p: string, s: seq<T>, key: T -> string, start: Option<string>, limit: nat, keep: T -> bool)
    requires limit > 0 && StrictlySorted(s, key)
    requires Query(p, s, key, start, limit, keep).lastKey.Some?
    ensures |Remaining(s, key, start)| >= limit
    ensures |Remaining(s, key, Some(Query(p, s, key, start, limit, keep).lastKey.value.sort))| == |Remaining(s, key, start)| - limit
  {
    LastKeyOfQuery(p, s, key, start, limit, keep);
    ResumeRemaining(s, key, start, limit);
  }

  lemma DivStep(n: nat, d: nat)
    requires 0 < d <= n
    ensures (n - d) / d + 1 == n / d
  {
    var q, r := (n - d) / d, (n - d) % d;
    assert n == (q + 1) * d + r && 0 <= r < d;
    DivUnique(n, d, q + 1, r);
  }

  lemma DivUnique(n: int, d: int, q: int, r: int)
    requires d > 0 && n == q * d + r && 0 <= r < d
    ensures n / d == q
  {
    var q', r' := n / d, n % d;
    assert n == q' * d + r';
    if q' > q {
      assert (q' - q) * d == q' * d - q * d;
      MulAtLeast(q' - q, d);
    } else if q' < q {
      assert (q - q') * d == q * d - q' * d;
      MulAtLeast(q - q', d);
    }
  }

  lemma {:induction false} MulAtLeast(k: nat, d: nat)
    requires k >= 1
    ensures k * d >= d
  {
    if k > 1 {
      MulAtLeast(k - 1, d);
      assert k * d == (k - 1) * d + d;
    }
  }

  /**
   * Write `x` under its key (UpdateItem): replace the item with the
   * same sort key, or insert it in key order when there is none.
   */
  function Upsert<T(!new)>(s: seq<T>, key: T -> string, x: T): (r: seq<T>)
    requires StrictlySorted(s, key)
    ensures StrictlySorted(r, key)
    ensures x in r
    ensures forall y :: y in r ==> y == x || (y in s && key(y) != key(x))
    ensures forall y :: y in s && key(y) != key(x) ==> y in r
    ensures (exists i :: 0 <= i < |s| && key(s[i]) == key(x)) ==>
              |r| == |s| && forall i :: 0 <= i < |s| ==> key(r[i]) == key(s[i])
  {
    if s == [] then [x]
    else if key(s[0]) == key(x) then
      UpsertAtHead(s, key, x);
      [x] + s[1..]
    else if Below(key(x), key(s[0])) then
      UpsertBefore(s, key, x);
      [x] + s
    else
      BelowTotal(key(x), key(s[0]));
      SortedTail(s, key);
      var tail := Upsert(s[1..], key, x);
      UpsertAfter(s, key, x, tail);
      [s[0]] + tail
  }

  /** What Upsert promises of its result `r`, as one predicate for the lemmas below. */
  ghost predicate UpsertOf<T(!new)>(s: seq<T>, key: T -> string, x: T, r: seq<T>) {
    && StrictlySorted(r, key)
    && x in r
    && (forall y :: y in r ==> y == x || (y in s && key(y) != key(x)))
    && (forall y :: y in s && key(y) != key(x) ==> y in r)
    && ((exists i :: 0 <= i < |s| && key(s[i]) == key(x)) ==>
          |r| == |s| && forall i :: 0 <= i < |s| ==> key(r[i]) == key(s[i]))
  }

  lemma SortedTail<T(!new)>(s: seq<T>, key: T -> string)
    requires StrictlySorted(s, key) && s != []
    ensures StrictlySorted(s[1..], key)
  {
    forall i, j | 0 <= i < j < |s[1..]| ensures Below(key(s[1..][i]), key(s[1..][j])) {
      assert s[1..][i] == s[i + 1] && s[1..][j] == s[j + 1];
    }
  }

  lemma SortedCons<T(!new)>(h: T, tail: seq<T>, key: T -> string)
    requires StrictlySorted(tail, key)
    requires forall y :: y in tail ==> Below(key(h), key(y))
    ensures StrictlySorted([h] + tail, key)
  {
    var r := [h] + tail;
    forall i, j | 0 <= i < j < |r| ensures Below(key(r[i]), key(r[j])) {
      assert r[j] == tail[j - 1];
      if i > 0 {
        assert r[i] == tail[i - 1];
      }
    }
  }

  /** The head carries x's key: x replaces it, and no later item can share that key. */
  lemma UpsertAtHead<T(!new)>(s: seq<T>, key: T -> string, x: T)
    requires StrictlySorted(s, key) && s != [] && key(s[0]) == key(x)
    ensures UpsertOf(s, key, x, [x] + s[1..])
  {
    var r := [x] + s[1..];
    assert forall i :: 0 < i < |r| ==> r[i] == s[i];
    forall y | y in s[1..] ensures key(y) != key(x) {
      var j :| 0 <= j < |s[1..]| && s[1..][j] == y;
      assert s[j + 1] == y;
      if key(y) == key(x) {
        BelowIrreflexive(key(x));
      }
    }
    forall y | y in s && key(y) != key(x) ensures y in r {
      var j :| 0 <= j < |s| && s[j] == y;
      assert j > 0 && r[j] == y;
    }
  }

  /** x's key comes before the head's: x goes first, and no item shares its key. */
  lemma UpsertBefore<T(!new)>(s: seq<T>, key: T -> string, x: T)
    requires StrictlySorted(s, key) && s != [] && Below(key(x), key(s[0]))
    ensures UpsertOf(s, key, x, [x] + s)
  {
    var r := [x] + s;
    forall i, j | 0 <= i < j < |r|
      ensures Below(key(r[i]), key(r[j]))
    {
      if i == 0 && j > 1 {
        BelowTransitive(key(x), key(s[0]), key(s[j - 1]));
      }
    }
    forall i | 0 <= i < |s| ensures key(s[i]) != key(x) {
      if i > 0 && key(s[i]) == key(x) {
        BelowAsymmetric(key(s[0]), key(s[i]));
      }
      if i == 0 {
        BelowIrreflexive(key(x));
      }
    }
  }

  /** x's key comes after the head's: the head stays, and x goes into the tail. */
  lemma UpsertAfter<T(!new)>(s: seq<T>, key: T -> string, x: T, tail: seq<T>)
    requires StrictlySorted(s, key) && s != [] && Below(key(s[0]), key(x))
    requires UpsertOf(s[1..], key, x, tail)
    ensures UpsertOf(s, key, x, [s[0]] + tail)
  {
    assert key(s[0]) != key(x) by {
      BelowIrreflexive(key(x));
    }
    ConsMembers(s, key, x, tail);
    forall y | y in tail ensures Below(key(s[0]), key(y)) {
      if y != x {
        var k :| 0 <= k < |s[1..]| && s[1..][k] == y;
        assert s[k + 1] == y;
      }
    }
    SortedCons(s[0], tail, key);
    if exists i :: 0 <= i < |s| && key(s[i]) == key(x) {
      var i :| 0 <= i < |s| && key(s[i]) == key(x);
      assert s[1..][i - 1] == s[i];
      ConsSameKeys(s, key, tail);
    }
  }

  /** Keeping a head whose key differs from x's keeps Upsert's membership facts. */
  lemma ConsMembers<T(!new)>(s: seq<T>, key: T -> string, x: T, tail: seq<T>)
    requires s != [] && key(s[0]) != key(x)
    requires forall y :: y in tail ==> y == x || (y in s[1..] && key(y) != key(x))
    requires forall y :: y in s[1..] && key(y) != key(x) ==> y in tail
    ensures forall y :: y in [s[0]] + tail ==> y == x || (y in s && key(y) != key(x))
    ensures forall y :: y in s && key(y) != key(x) ==> y in [s[0]] + tail
  {
    forall y | y in s && key(y) != key(x) ensures y in [s[0]] + tail {
      if y != s[0] {
        var k :| 0 <= k < |s| && s[k] == y;
        assert s[1..][k - 1] == y;
      }
    }
  }

  /** A new head over a tail that keeps the keys of s[1..] keeps the keys of s. */
  lemma ConsSameKeys<T>(s: seq<T>, key: T -> string, tail: seq<T>)
    requires s != [] && |tail| == |s| - 1
    requires forall i :: 0 <= i < |tail| ==> key(tail[i]) == key(s[1..][i])
    ensures forall k :: 0 <= k < |s| ==> key(([s[0]] + tail)[k]) == key(s[k])
  {
    forall k | 0 <= k < |s| ensures key(([s[0]] + tail)[k]) == key(s[k]) {
      if k > 0 {
        assert ([s[0]] + tail)[k] == tail[k - 1] && s[k] == s[1..][k - 1];
      }
    }
  }

}
