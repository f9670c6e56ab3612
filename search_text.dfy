/**
 * The search string `find_on_spotify` sends: a fielded query naming the
 * title and the artist when the name splits into at least two parts, the
 * raw track name otherwise.  The splitter itself is not interpreted; its
 * answer is an argument here.
 */
module SearchText {
  import opened Wrappers

  const TrackField := "track:\""
  const ArtistField := "\"+artist:\""

  /** The query for `trackName`, given what the splitter answered for it. */
  function BuildQuery(trackName: string, split: Option<seq<string>>): (q: string)
    ensures split.Some? && |split.value| > 1 ==>
              && |q| == |TrackField| + |split.value[1]| + |ArtistField| + |split.value[0]| + 1
              && q[..|TrackField|] == TrackField && q[|q| - 1] == '"'
              && q[|TrackField|..|TrackField| + |split.value[1]|] == split.value[1]
    ensures !(split.Some? && |split.value| > 1) ==> q == trackName
  {
    if split.Some? && |split.value| > 1 then
      TrackField + split.value[1] + ArtistField + split.value[0] + "\""
    else
      trackName
  }

  /** Index of the first double quote in `s`, or |s| when there is none. */
  function IndexOfQuote(s: string): (i: nat)
    ensures i <= |s|
    ensures forall j :: 0 <= j < i ==> s[j] != '"'
    ensures i < |s| ==> s[i] == '"'
  {
    if s == [] then 0
    else if s[0] == '"' then 0
    else 1 + IndexOfQuote(s[1..])
  }

  /** Reads a fielded query back as (artist, title); None for any other string. */
  function ParseQuery(q: string): Option<(string, string)> {
    var n := |TrackField|;
    if |q| < n + 1 || q[..n] != TrackField || q[|q| - 1] != '"' then None
    else
      var middle := q[n..|q| - 1];
      var i := IndexOfQuote(middle);
      var rest := middle[i..];
      if |rest| >= |ArtistField| && rest[..|ArtistField|] == ArtistField then
        Some((rest[|ArtistField|..], middle[..i]))
      else
        None
  }

  /** The first quote of `a + b` is the one that opens `b`, when `a` holds none. */
  lemma {:induction false} IndexOfQuoteAfter(a: string, b: string)
    requires '"' !in a && |b| > 0 && b[0] == '"'
    ensures IndexOfQuote(a + b) == |a|
  {
    if a == [] {
      assert a + b == b;
    } else {
      assert a[0] in a;
      assert (a + b)[1..] == a[1..] + b;
      assert forall c :: c in a[1..] ==> c in a;
      IndexOfQuoteAfter(a[1..], b);
    }
  }

  /**
   * A split name yields a query that names exactly its artist (part 0) and
   * its title (part 1), as long as the title holds no double quote; a name
   * that does not split is sent as it is.
   */
  lemma BuildQueryMeaning(trackName: string, split: Option<seq<string>>)
    ensures split.Some? && |split.value| > 1 && '"' !in split.value[1] ==>
              ParseQuery(BuildQuery(trackName, split)) == Some((split.value[0], split.value[1]))
    ensures !(split.Some? && |split.value| > 1) ==> BuildQuery(trackName, split) == trackName
  {
    if split.Some? && |split.value| > 1 && '"' !in split.value[1] {
      var artist, title := split.value[0], split.value[1];
      var q := BuildQuery(trackName, split);
      var n := |TrackField|;
      var rest := ArtistField + artist;
      var middle := title + rest;
      assert q == TrackField + middle + "\"";
      assert q[..n] == TrackField;
      assert q[n..|q| - 1] == middle;
      IndexOfQuoteAfter(title, rest);
      assert middle[|title|..] == rest;
      assert middle[..|title|] == title;
      assert rest[..|ArtistField|] == ArtistField;
      assert rest[|ArtistField|..] == artist;
    }
  }
}
