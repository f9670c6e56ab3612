/**
 * The Spotify Web API as the handler uses it (search, user_playlist_create,
 * user_playlist_add_tracks), modelled as a fake client that logs every call.
 * The service's search ranking and its playlist ids are not interpreted:
 * they are fixed when the client is built.
 */
module Spotify {
  import opened Seqs

  /** The fields of a search hit the handler reads (uri, artists[0].name, name). */
  datatype SpotifyTrack = SpotifyTrack(uri: string, artist: string, name: string)

  /** One request to the service, with the arguments the handler passes. */
  datatype Call =
    | SearchCall(query: string, limit: nat, kind: string)
    | CreateCall(user: string, name: string, public: bool)
    | AddTracksCall(user: string, playlist: string, uris: seq<string>, position: nat)

  predicate IsSearch(c: Call) { c.SearchCall? }

  predicate IsCreate(c: Call) { c.CreateCall? }

  predicate IsPrepend(c: Call) { c.AddTracksCall? }

  /** The playlist mutations in a call log, in the order they were issued. */
  function Prepends(calls: seq<Call>): seq<Call> {
    Filter(calls, IsPrepend)
  }

  /** The searches in a call log, in the order they were issued. */
  function Searches(calls: seq<Call>): seq<Call> {
    Filter(calls, IsSearch)
  }

  /** The playlist creations in a call log, in the order they were issued. */
  function Creates(calls: seq<Call>): seq<Call> {
    Filter(calls, IsCreate)
  }

  class Client {
    /** The ranked hits the service gives for each query (no entry: no hits). */
    const ranking: map<string, seq<SpotifyTrack>>
    /** The id the service assigns to the n-th playlist created through this client. */
    const mint: nat -> string
    /** Every request made through this client, oldest first. */
    var calls: seq<Call>
    var created: nat

    constructor (ranking: map<string, seq<SpotifyTrack>>, mint: nat -> string)
      ensures this.ranking == ranking && this.mint == mint
      ensures calls == [] && created == 0
    {
      this.ranking := ranking;
      this.mint := mint;
      calls := [];
      created := 0;
    }

    /** All hits the service ranks for `query`, best first. */
    function Hits(query: string): seq<SpotifyTrack> {
      if query in ranking then ranking[query] else []
    }

    /** search(q, limit, type): the first `limit` hits, best first. */
    method Search(query: string, limit: nat, kind: string) returns (items: seq<SpotifyTrack>)
      modifies this`calls
      ensures calls == old(calls) + [SearchCall(query, limit, kind)]
      ensures |items| <= limit
      ensures |items| <= |Hits(query)| && items == Hits(query)[..|items|]
      ensures |items| == limit || items == Hits(query)
    {
      calls := calls + [SearchCall(query, limit, kind)];
      var hits := Hits(query);
      items := if |hits| <= limit then hits else hits[..limit];
    }

    /** user_playlist_create: a new playlist, whose id the service picks. */
    method UserPlaylistCreate(user: string, name: string, public: bool) returns (id: string)
      modifies this`calls, this`created
      ensures calls == old(calls) + [CreateCall(user, name, public)]
      ensures created == old(created) + 1
      ensures id == mint(old(created))
    {
      calls := calls + [CreateCall(user, name, public)];
      id := mint(created);
      created := created + 1;
    }

    /** user_playlist_add_tracks: insert `uris` into `playlist` at `position`. */
    method UserPlaylistAddTracks(user: string, playlist: string, uris: seq<string>, position: nat)
      modifies this`calls
      ensures calls == old(calls) + [AddTracksCall(user, playlist, uris, position)]
    {
      calls := calls + [AddTracksCall(user, playlist, uris, position)];
    }
  }
}
