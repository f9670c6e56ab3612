/**
 * Rows of the playlist table for one channel: partition yt_channel_id,
 * sort key num, attribute spotify_playlist.
 */
module Playlists {
  import opened Wrappers

  datatype PlaylistEntry = PlaylistEntry(num: int, id: string)

  /** A channel's rows in sort-key order: ascending num, each num once. */
  ghost predicate Ascending(s: seq<PlaylistEntry>) {
    forall i, j :: 0 <= i < j < |s| ==> s[i].num < s[j].num
  }

  /**
   * A Query with ScanIndexForward=False and Limit=1: the row with the
   * highest num, or nothing when the channel has no playlist yet.
   */
  function LastPlaylist(s: seq<PlaylistEntry>): (r: Option<PlaylistEntry>)
    requires Ascending(s)
    ensures r.None? <==> s == []
    ensures r.Some? ==> r.value in s && forall e :: e in s ==> e.num <= r.value.num
  {
    if s == [] then None else Some(s[|s| - 1])
  }

  /** PutItem of `e`: replaces the row with the same num, or adds it in num order. */
  function PutPlaylist(s: seq<PlaylistEntry>, e: PlaylistEntry): (r: seq<PlaylistEntry>)
    requires Ascending(s)
    ensures Ascending(r)
    ensures e in r
    ensures forall x :: x in r ==> x == e || (x in s && x.num != e.num)
    ensures forall x :: x in s && x.num != e.num ==> x in r
  {
    if s == [] then [e]
    else if s[0].num == e.num then [e] + s[1..]
    else if e.num < s[0].num then [e] + s
    else [s[0]] + PutPlaylist(s[1..], e)
  }
}
