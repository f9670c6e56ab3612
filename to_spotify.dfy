/**
 * The to-spotify Lambda: the five DynamoDB tables it uses (cursors,
 * channels, tracks, playlists, duplicates) as fields of one object, the
 * Spotify client as a logging fake, and one method per function of the
 * handler.  The reactive branch of `handle` looks up the tracks of a
 * DynamoDB stream batch; the batch branch resumes the rediscovery sweep.
 */
module ToSpotify {
  import opened Wrappers
  import opened Seqs
  import opened Dynamo
  import opened Spotify
  import opened SearchText
  import opened Sweep
  import opened Playlists

  /**
   * One prepend of a track to a playlist: the channel and sort key of the
   * track row it was for, the track uri, the playlist.
   */
  datatype Placement = Placement(channel: string, composite: string, uri: string, playlist: string)

  /** The 'dynamodb' part of a stream record, with its NewImage deserialized. */
  datatype StreamRecord = StreamRecord(newImage: Option<TrackItem>)

  /** The Lambda event: stream Records (reactive mode) or none (batch mode). */
  datatype Event = Event(records: Option<seq<StreamRecord>>)

  /** A stream record is looked up when it has a NewImage without a spotify_uri. */
  predicate Qualifies(r: StreamRecord) {
    r.newImage.Some? && r.newImage.value.spotifyUri.None?
  }

  /** The images of the records that qualify, in stream order. */
  function QualifyingImages(records: seq<StreamRecord>): (r: seq<TrackItem>)
    ensures |r| <= |records|
  {
    if records == [] then []
    else
      var rest := QualifyingImages(records[..|records| - 1]);
      var last := records[|records| - 1];
      if Qualifies(last) then rest + [last.newImage.value] else rest
  }

  /**
   * Exactly the qualifying records contribute their image: every one of
   * them does, every image is the NewImage of a qualifying record (so it has
   * no spotify_uri), and there are none exactly when no record qualifies.
   */
  lemma {:induction false} QualifyingImagesMeaning(records: seq<StreamRecord>)
    ensures forall i :: 0 <= i < |records| && Qualifies(records[i]) ==> records[i].newImage.value in QualifyingImages(records)
    ensures forall t :: t in QualifyingImages(records) ==>
              exists i :: 0 <= i < |records| && Qualifies(records[i]) && records[i].newImage.value == t
    ensures forall t :: t in QualifyingImages(records) ==> t.spotifyUri.None?
    ensures QualifyingImages(records) == [] <==> forall i :: 0 <= i < |records| ==> !Qualifies(records[i])
  {
    if records != [] {
      var front := records[..|records| - 1];
      QualifyingImagesMeaning(front);
      assert forall i :: 0 <= i < |front| ==> front[i] == records[i];
      forall t | t in QualifyingImages(records)
        ensures exists i :: 0 <= i < |records| && Qualifies(records[i]) && records[i].newImage.value == t
      {
        if t in QualifyingImages(front) {
          var i :| 0 <= i < |front| && Qualifies(front[i]) && front[i].newImage.value == t;
          assert records[i] == front[i];
        } else {
          assert Qualifies(records[|records| - 1]) && records[|records| - 1].newImage.value == t;
        }
      }
    }
  }

  /** One more record adds its image when it qualifies, and nothing otherwise. */
  lemma QualifyingStep(records: seq<StreamRecord>, i: nat)
    requires i < |records|
    ensures Qualifies(records[i]) ==>
              QualifyingImages(records[..i + 1]) == QualifyingImages(records[..i]) + [records[i].newImage.value]
    ensures !Qualifies(records[i]) ==> QualifyingImages(records[..i + 1]) == QualifyingImages(records[..i])
  {
    assert records[..i + 1][..i] == records[..i];
  }

  /** The images of a prefix of a batch are a prefix of the images of the whole batch. */
  lemma {:induction false} QualifyingPrefix(records: seq<StreamRecord>, k: nat)
    requires k <= |records|
    ensures var pre := QualifyingImages(records[..k]);
      |pre| <= |QualifyingImages(records)| && pre == QualifyingImages(records)[..|pre|]
    decreases |records| - k
  {
    if k < |records| {
      var front := records[..|records| - 1];
      assert front[..k] == records[..k];
      QualifyingPrefix(front, k);
    } else {
      assert records[..k] == records;
    }
  }

  /** The search string find_on_spotify builds for a track name, given the splitter. */
  function QueryFor(split: string -> Option<seq<string>>, trackName: string): string {
    BuildQuery(trackName, split(trackName))
  }

  /** The search calls that looking up these tracks issues, in order. */
  function SearchCalls(split: string -> Option<seq<string>>, items: seq<TrackItem>): (r: seq<Call>)
    ensures |r| == |items|
  {
    if items == [] then []
    else SearchCalls(split, items[..|items| - 1]) + [SearchCall(QueryFor(split, items[|items| - 1].name), 1, "track")]
  }

  /**
   * A search log that held `base` and then the searches for `done` holds,
   * after one more search for `x`, `base` and the searches for `done + [x]`.
   */
  lemma SearchCallsStep(split: string -> Option<seq<string>>, base: seq<Call>, done: seq<TrackItem>, x: TrackItem)
    ensures (base + SearchCalls(split, done)) + [SearchCall(QueryFor(split, x.name), 1, "track")]
         == base + SearchCalls(split, done + [x])
  {
    assert (done + [x])[..|done|] == done;
    ConcatAssoc(base, SearchCalls(split, done), [SearchCall(QueryFor(split, x.name), 1, "track")]);
  }

  /** The user_playlist_add_tracks calls that a sequence of placements issues. */
  function PrependCalls(user: string, placed: seq<Placement>): seq<Call> {
    if placed == [] then []
    else
      var p := placed[|placed| - 1];
      PrependCalls(user, placed[..|placed| - 1]) + [AddTracksCall(user, p.playlist, [p.uri], 0)]
  }

  /** The placements issue one prepend each, in order, at position 0 and of one uri. */
  lemma {:induction false} PrependCallsAt(user: string, placed: seq<Placement>)
    ensures |PrependCalls(user, placed)| == |placed|
    ensures forall i :: 0 <= i < |placed| ==>
              PrependCalls(user, placed)[i] == AddTracksCall(user, placed[i].playlist, [placed[i].uri], 0)
  {
    if placed != [] {
      var front := placed[..|placed| - 1];
      PrependCallsAt(user, front);
      assert forall i :: 0 <= i < |front| ==> front[i] == placed[i];
    }
  }

  /** No (channel, uri) pair is placed twice. */
  ghost predicate DistinctPairs(placed: seq<Placement>) {
    forall i, j :: 0 <= i < j < |placed| ==>
      (placed[i].channel, placed[i].uri) != (placed[j].channel, placed[j].uri)
  }

  /**
   * No (channel, uri) pair is placed twice, and the duplicate index holds
   * every placement with the playlist it went to.
   */
  ghost predicate Indexed(placed: seq<Placement>, duplicates: map<(string, string), string>) {
    && DistinctPairs(placed)
    && forall i :: 0 <= i < |placed| ==>
         (placed[i].channel, placed[i].uri) in duplicates
         && duplicates[(placed[i].channel, placed[i].uri)] == placed[i].playlist
  }

  /** Placing a pair the index does not yet hold, and indexing it, keeps the index exact. */
  lemma PlacementKeepsIndexed(placed: seq<Placement>, duplicates: map<(string, string), string>, p: Placement)
    requires Indexed(placed, duplicates)
    requires (p.channel, p.uri) !in duplicates
    ensures Indexed(placed + [p], duplicates[(p.channel, p.uri) := p.playlist])
  {
    var placed', duplicates' := placed + [p], duplicates[(p.channel, p.uri) := p.playlist];
    forall i | 0 <= i < |placed'|
      ensures (placed'[i].channel, placed'[i].uri) in duplicates'
      ensures duplicates'[(placed'[i].channel, placed'[i].uri)] == placed'[i].playlist
    {
      if i < |placed| {
        assert placed'[i] == placed[i];
        assert (placed[i].channel, placed[i].uri) in duplicates;
      }
    }
    forall i, j | 0 <= i < j < |placed'|
      ensures (placed'[i].channel, placed'[i].uri) != (placed'[j].channel, placed'[j].uri)
    {
      assert placed'[i] == placed[i];
      assert (placed[i].channel, placed[i].uri) in duplicates;
      if j < |placed| {
        assert placed'[j] == placed[j];
      }
    }
  }

  /** Every playlist partition is in num order. */
  ghost predicate PlaylistsWellFormed(playlists: map<string, seq<PlaylistEntry>>) {
    forall c :: c in playlists ==> Ascending(playlists[c])
  }

  /**
   * The channel row a Query on host = 'yt' and channel_id = id finds
   * (create_playlist_for_channel reads Items[0] of it).
   */
  function FindChannel(channels: seq<Channel>, id: string): (r: Option<Channel>)
    ensures r.Some? ==> r.value in channels && r.value.id == id
    ensures r.None? <==> forall c :: c in channels ==> c.id != id
  {
    if channels == [] then None
    else if channels[0].id == id then Some(channels[0])
    else FindChannel(channels[1..], id)
  }

  /**
   * The playlist get_playlist_for_channel yields for channel `c`: its
   * highest-num playlist, else the one it creates (num 1, with the id
   * `next` the service assigns), else none when the channel row is missing.
   */
  function PlaylistChoice(channels: seq<Channel>, playlists: map<string, seq<PlaylistEntry>>, next: string, c: string): (r: Option<PlaylistEntry>)
    requires PlaylistsWellFormed(playlists)
    ensures r.None? <==> Partition(playlists, c) == [] && forall ch :: ch in channels ==> ch.id != c
    ensures r.Some? && Partition(playlists, c) != [] ==>
              r.value in Partition(playlists, c) && forall e :: e in Partition(playlists, c) ==> e.num <= r.value.num
    ensures r.Some? && Partition(playlists, c) == [] ==> r.value == PlaylistEntry(1, next)
  {
    var last := LastPlaylist(Partition(playlists, c));
    if last.Some? then last
    else if FindChannel(channels, c).Some? then Some(PlaylistEntry(1, next))
    else None
  }

  /** The user_playlist_create calls get_playlist_for_channel issues for channel `c`: one, named after the channel, exactly when it has no playlist but a channel row. */
  function CreationCalls(user: string, channels: seq<Channel>, playlists: map<string, seq<PlaylistEntry>>, c: string): (r: seq<Call>)
    requires PlaylistsWellFormed(playlists)
    ensures |r| <= 1
    ensures forall call :: call in r ==> IsCreate(call) && !IsSearch(call) && !IsPrepend(call)
    ensures r != [] <==> Partition(playlists, c) == [] && exists ch :: ch in channels && ch.id == c
  {
    if LastPlaylist(Partition(playlists, c)).None? && FindChannel(channels, c).Some? then
      [CreateCall(user, FindChannel(channels, c).value.name, true)]
    else []
  }

  /**
   * A channel's playlist rows change only by the creation of its first
   * playlist, num 1, when it had none.
   */
  predicate PlaylistKept(before: map<string, seq<PlaylistEntry>>, after: map<string, seq<PlaylistEntry>>, c: string) {
    || Partition(after, c) == Partition(before, c)
    || (Partition(before, c) == [] && |Partition(after, c)| == 1 && Partition(after, c)[0].num == 1)
  }

  /**
   * The playlist table after get_playlist_for_channel for channel `c`, when
   * the service assigns the id `next` to a new playlist: the chosen playlist
   * is then the channel's highest-num row, only channel `c` can change, and
   * it changes only by the creation of playlist 1.
   */
  function PlaylistsAfter(channels: seq<Channel>, playlists: map<string, seq<PlaylistEntry>>, next: string, c: string): (r: map<string, seq<PlaylistEntry>>)
    requires PlaylistsWellFormed(playlists)
    ensures PlaylistsWellFormed(r)
    ensures forall c' :: PlaylistKept(playlists, r, c')
    ensures forall c' :: c' != c ==> Partition(r, c') == Partition(playlists, c')
    ensures var choice := PlaylistChoice(channels, playlists, next, c);
      && (choice.Some? ==> Partition(r, c) != [] && LastPlaylist(Partition(r, c)) == choice)
      && (choice.None? ==> r == playlists)
  {
    if Partition(playlists, c) == [] && FindChannel(channels, c).Some? then playlists[c := [PlaylistEntry(1, next)]]
    else playlists
  }

  /**
   * Once get_playlist_for_channel has found or created a playlist for `c`,
   * asking again creates nothing, yields the same playlist and leaves the
   * table as it is, whatever id the service would assign next.
   */
  lemma AskingAgainCreatesNothing(user: string, channels: seq<Channel>, playlists: map<string, seq<PlaylistEntry>>,
                                  next: string, next': string, c: string)
    requires PlaylistsWellFormed(playlists)
    requires PlaylistChoice(channels, playlists, next, c).Some?
    ensures var after := PlaylistsAfter(channels, playlists, next, c);
      && CreationCalls(user, channels, after, c) == []
      && PlaylistChoice(channels, after, next', c) == PlaylistChoice(channels, playlists, next, c)
      && PlaylistsAfter(channels, after, next', c) == after
  {
  }

  /** Placement `p` was for the track row with t's key. */
  predicate Rewrites(p: Placement, t: TrackItem) {
    p.channel == t.channel && p.composite == t.composite
  }

  /** The track row spotify_lookup writes for placement `p`: under p's key, matched at `now` with p's uri and playlist. */
  predicate RowOf(t: TrackItem, p: Placement, now: string) {
    Rewrites(p, t) && t.spotifyUri == Some(p.uri) && t.spotifyPlaylist == Some(p.playlist) && t.foundTime == Some(now)
  }

  /** The duplicate index after put_item of each placement's pair, in order. */
  function IndexPlacements(d: map<(string, string), string>, ps: seq<Placement>): (r: map<(string, string), string>)
    ensures forall k :: k in d ==> k in r
    ensures forall i :: 0 <= i < |ps| ==> (ps[i].channel, ps[i].uri) in r
  {
    if ps == [] then d
    else
      var p := ps[|ps| - 1];
      IndexPlacements(d, ps[..|ps| - 1])[(p.channel, p.uri) := p.playlist]
  }

  /**
   * Two stretches of placements, each extending the one before and indexed
   * on top of the index before it, are one stretch indexed on the first index.
   */
  lemma IndexChain(p0: seq<Placement>, p1: seq<Placement>, p2: seq<Placement>,
                   d0: map<(string, string), string>, d1: map<(string, string), string>, d2: map<(string, string), string>)
    requires |p0| <= |p1| && p1[..|p0|] == p0 && d1 == IndexPlacements(d0, p1[|p0|..])
    requires |p1| <= |p2| && p2[..|p1|] == p1 && d2 == IndexPlacements(d1, p2[|p1|..])
    ensures |p0| <= |p2| && p2[..|p0|] == p0
    ensures d2 == IndexPlacements(d0, p2[|p0|..])
  {
    assert p2[..|p0|] == p2[..|p1|][..|p0|];
    assert p2[|p0|..] == p1[|p0|..] + p2[|p1|..];
    IndexPlacementsConcat(d0, p1[|p0|..], p2[|p1|..]);
  }

  /** Indexing `a` and then `b` is indexing `a + b`. */
  lemma {:induction false} IndexPlacementsConcat(d: map<(string, string), string>, a: seq<Placement>, b: seq<Placement>)
    ensures IndexPlacements(d, a + b) == IndexPlacements(IndexPlacements(d, a), b)
  {
    if b == [] {
      assert a + b == a;
    } else {
      var b' := b[..|b| - 1];
      assert (a + b)[..|a + b| - 1] == a + b';
      IndexPlacementsConcat(d, a, b');
    }
  }

  /** The four tables a lookup can change, with the placements made so far, as one value. */
  datatype Tables = Tables(
    tracks: map<string, seq<TrackItem>>,
    playlists: map<string, seq<PlaylistEntry>>,
    duplicates: map<(string, string), string>,
    placed: seq<Placement>)

  /** Every track and playlist partition is in key order. */
  ghost predicate Shaped(t: Tables) {
    TracksWellFormed(t.tracks) && PlaylistsWellFormed(t.playlists)
  }

  /** What a lookup can change: the tables with the placements, the client's call log and its count of created playlists. */
  datatype State = State(tables: Tables, calls: seq<Call>, created: nat)

  /** The state after an operation, with its outcome. */
  datatype After = After(state: State, outcome: Outcome)

  /** The track row after update_item sets spotify_uri, spotify_playlist, spotify_found_time, yt_track_name and spotify_track_info. */
  function Matched(record: TrackItem, m: SpotifyTrack, playlist: string, now: string): (r: TrackItem)
    ensures r.channel == record.channel && r.composite == record.composite && r.name == record.name
    ensures !Unmatched(r) && RowOf(r, Placement(record.channel, record.composite, m.uri, playlist), now)
  {
    TrackItem(record.channel, record.composite, record.name, Some(m.uri), Some(playlist), Some(now), Some(m))
  }

  /** update_item on the track table: writes `item` under its key, creating the row if absent. */
  function UpdateTrack(tracks: map<string, seq<TrackItem>>, item: TrackItem): (r: map<string, seq<TrackItem>>)
    requires TracksWellFormed(tracks)
    ensures TracksWellFormed(r)
  {
    var part := Upsert(Partition(tracks, item.channel), TrackComposite, item);
    tracks[item.channel := part]
  }

  /**
   * After update_item the row is in its channel's partition, it replaces
   * the row with its key if there was one, and every other row of every
   * partition stays.
   */
  lemma UpdateTrackFacts(tracks: map<string, seq<TrackItem>>, item: TrackItem)
    requires TracksWellFormed(tracks)
    ensures var r := UpdateTrack(tracks, item);
      && item in Partition(r, item.channel)
      && (forall c :: c != item.channel ==> Partition(r, c) == Partition(tracks, c))
      && (forall t :: t in Partition(r, item.channel) ==>
            t == item || (t in Partition(tracks, item.channel) && t.composite != item.composite))
      && (forall t :: t in Partition(tracks, item.channel) && t.composite != item.composite ==>
            t in Partition(r, item.channel))
  {
  }

  /**
   * A successful placement keeps the tables exact: the new pair is indexed
   * and the track table stays well formed.
   */
  lemma PlacementKeepsIndex(tracks: map<string, seq<TrackItem>>, placed: seq<Placement>,
                            duplicates: map<(string, string), string>, p: Placement, item: TrackItem)
    requires TracksWellFormed(tracks)
    requires Indexed(placed, duplicates)
    requires (p.channel, p.uri) !in duplicates
    ensures TracksWellFormed(UpdateTrack(tracks, item))
    ensures Indexed(placed + [p], duplicates[(p.channel, p.uri) := p.playlist])
  {
    PlacementKeepsIndexed(placed, duplicates, p);
  }

  /**
   * A successful placement keeps the log exact: it gains exactly the
   * placement's prepend (creations are neither prepends nor searches).
   */
  lemma PlacementKeepsLog(user: string, placed: seq<Placement>, calls: seq<Call>, creations: seq<Call>, p: Placement)
    requires Prepends(calls) == PrependCalls(user, placed)
    requires forall c :: c in creations ==> !IsSearch(c) && !IsPrepend(c)
    ensures var calls' := calls + creations + [AddTracksCall(user, p.playlist, [p.uri], 0)];
      && Prepends(calls') == PrependCalls(user, placed + [p])
      && Searches(calls') == Searches(calls)
  {
    var add := AddTracksCall(user, p.playlist, [p.uri], 0);
    FilterAppendDropped(calls, creations, IsSearch);
    FilterAppendDropped(calls, creations, IsPrepend);
    FilterAppendDropped(calls + creations, [add], IsSearch);
    FilterAppendKept(calls + creations, add, IsPrepend);
    assert (placed + [p])[..|placed|] == placed;
  }

  class Mirror {
    /** SPOTIPY_USER. */
    const user: string
    /** trackfilter's split_artist_track, not interpreted. */
    const split: string -> Option<seq<string>>
    const sp: Client
    /** mirrorfm_channels, host 'yt': read, never written, by this handler. */
    const channels: seq<Channel>
    /** mirrorfm_yt_tracks, by channel. */
    var tracks: map<string, seq<TrackItem>>
    /** mirrorfm_yt_playlists, by channel. */
    var playlists: map<string, seq<PlaylistEntry>>
    /** mirrorfm_yt_duplicates: (yt_channel_id, spotify uri) to spotify_playlist. */
    var duplicates: map<(string, string), string>
    /** mirrorfm_cursors. */
    var cursors: Cursors
    /** The placements made through this object, in order. */
    ghost var placed: seq<Placement>

    /**
     * The tables are well formed, no (channel, uri) pair has been placed
     * twice, and each placement is recorded in the duplicate index with its
     * playlist.
     */
    ghost predicate Consistent(w: State) {
      && StrictlySorted(channels, ChannelId)
      && Shaped(w.tables)
      && Indexed(w.tables.placed, w.tables.duplicates)
    }

    /** The playlist mutations in the Spotify log are exactly the placements, in order. */
    ghost predicate Logged(w: State) {
      Prepends(w.calls) == PrependCalls(user, w.tables.placed)
    }

    /** The object is consistent. */
    ghost predicate Valid()
      reads this`tracks, this`playlists, this`duplicates, this`placed, sp`calls, sp`created
    {
      Consistent(Now())
    }

    constructor (user: string, split: string -> Option<seq<string>>, sp: Client, channels: seq<Channel>,
                 tracks: map<string, seq<TrackItem>>, playlists: map<string, seq<PlaylistEntry>>,
                 duplicates: map<(string, string), string>, cursors: Cursors)
      requires StrictlySorted(channels, ChannelId) && TracksWellFormed(tracks) && PlaylistsWellFormed(playlists)
      requires Prepends(sp.calls) == []
      ensures Valid() && Logged(Now())
      ensures this.user == user && this.split == split && this.sp == sp && this.channels == channels
      ensures this.tracks == tracks && this.playlists == playlists
      ensures this.duplicates == duplicates && this.cursors == cursors && placed == []
    {
      this.user := user;
      this.split := split;
      this.sp := sp;
      this.channels := channels;
      this.tracks := tracks;
      this.playlists := playlists;
      this.duplicates := duplicates;
      this.cursors := cursors;
      placed := [];
    }

    /** The first hit of that search, if any: what a limit-1 search answers. */
    function BestMatch(trackName: string): (r: Option<SpotifyTrack>)
      ensures r.None? <==> sp.Hits(QueryFor(split, trackName)) == []
      ensures r.Some? ==> [r.value] == sp.Hits(QueryFor(split, trackName))[..1]
    {
      var hits := sp.Hits(QueryFor(split, trackName));
      if hits == [] then None else Some(hits[0])
    }

    /** The tables a lookup can change, and the placements, as they stand. */
    ghost function Snapshot(): Tables
      reads this`tracks, this`playlists, this`duplicates, this`placed
    {
      Tables(tracks, playlists, duplicates, placed)
    }

    /** The state a lookup can change, as it stands. */
    ghost function Now(): State
      reads this`tracks, this`playlists, this`duplicates, this`placed, sp`calls, sp`created
    {
      State(Snapshot(), sp.calls, sp.created)
    }

    /** Placement `p` is of the first hit of one of the `looked` tracks, for that track's row. */
    ghost predicate HitOf(p: Placement, looked: seq<TrackItem>) {
      exists t :: t in looked && Rewrites(p, t) && BestMatch(t.name).Some? && BestMatch(t.name).value.uri == p.uri
    }

    /**
     * From `s0` to `s`, looking up the `looked` tracks at `now` changed the
     * tables only by placements: the placements grew, each new one is of a
     * hit of a looked-up track; the duplicate index gained exactly their
     * pairs; every new track row is the matched row of a new placement;
     * every track row that is gone was under the key of a new placement;
     * with no new placement neither the track nor the playlist table
     * changed; and a playlist partition changed only by the creation of
     * playlist 1 for a channel that had none.
     */
    ghost predicate PlacedOnly(s0: Tables, s: Tables, looked: seq<TrackItem>, now: string) {
      && |s0.placed| <= |s.placed| && s.placed[..|s0.placed|] == s0.placed
      && (forall j :: |s0.placed| <= j < |s.placed| ==> HitOf(s.placed[j], looked))
      && s.duplicates == IndexPlacements(s0.duplicates, s.placed[|s0.placed|..])
      && (|s.placed| == |s0.placed| ==> s.tracks == s0.tracks && s.playlists == s0.playlists)
      && (forall c, t :: t in Partition(s.tracks, c) && t !in Partition(s0.tracks, c) ==>
            exists j :: |s0.placed| <= j < |s.placed| && RowOf(t, s.placed[j], now))
      && (forall c, t :: t in Partition(s0.tracks, c) && t !in Partition(s.tracks, c) ==>
            exists j :: |s0.placed| <= j < |s.placed| && Rewrites(s.placed[j], t))
      && (forall c :: PlaylistKept(s0.playlists, s.playlists, c))
    }

    /** Nothing changed is a change by no placement. */
    lemma PlacedOnlyRefl(s: Tables, looked: seq<TrackItem>, now: string)
      ensures PlacedOnly(s, s, looked, now)
    {
      assert s.placed[..|s.placed|] == s.placed && s.placed[|s.placed|..] == [];
    }

    /** A placement of a hit of one more looked-up track is still a change by placements. */
    lemma HitOfMore(p: Placement, a: seq<TrackItem>, b: seq<TrackItem>)
      requires HitOf(p, a)
      requires forall t :: t in a ==> t in b
      ensures HitOf(p, b)
    {
      var t :| t in a && Rewrites(p, t) && BestMatch(t.name).Some? && BestMatch(t.name).value.uri == p.uri;
      assert t in b;
    }

    /** Looking up more tracks keeps a change by placements one. */
    lemma PlacedOnlyLooked(s0: Tables, s: Tables, a: seq<TrackItem>, b: seq<TrackItem>, now: string)
      requires PlacedOnly(s0, s, a, now)
      requires forall t :: t in a ==> t in b
      ensures PlacedOnly(s0, s, b, now)
    {
      forall j | |s0.placed| <= j < |s.placed| ensures HitOf(s.placed[j], b) {
        HitOfMore(s.placed[j], a, b);
      }
    }

    /**
     * spotify_lookup's placement of the hit `m` of track `x` (the prepend,
     * the index entry, the matched row, a possible playlist creation) is a
     * change by placements.
     */
    lemma PlacedOnlyPlacement(s1: Tables, s2: Tables, x: TrackItem, m: SpotifyTrack, pl: string, now: string)
      requires TracksWellFormed(s1.tracks)
      requires BestMatch(x.name) == Some(m)
      requires s2.placed == s1.placed + [Placement(x.channel, x.composite, m.uri, pl)]
      requires s2.duplicates == s1.duplicates[(x.channel, m.uri) := pl]
      requires s2.tracks == UpdateTrack(s1.tracks, Matched(x, m, pl, now))
      requires forall c :: PlaylistKept(s1.playlists, s2.playlists, c)
      ensures PlacedOnly(s1, s2, [x], now)
    {
      var n := |s1.placed|;
      var p := Placement(x.channel, x.composite, m.uri, pl);
      assert s2.placed[..n] == s1.placed;
      assert s2.placed[n..] == [p];
      assert x in [x];
      assert HitOf(s2.placed[n], [x]);
      assert IndexPlacements(s1.duplicates, [p]) == s1.duplicates[(p.channel, p.uri) := p.playlist] by {
        assert [p][..0] == [];
      }
      var item := Matched(x, m, pl, now);
      UpdateTrackFacts(s1.tracks, item);
      forall c, t | t in Partition(s2.tracks, c) && t !in Partition(s1.tracks, c)
        ensures exists j :: n <= j < |s2.placed| && RowOf(t, s2.placed[j], now)
      {
        assert c == x.channel && t == item;
        assert RowOf(t, s2.placed[n], now);
      }
      forall c, t | t in Partition(s1.tracks, c) && t !in Partition(s2.tracks, c)
        ensures exists j :: n <= j < |s2.placed| && Rewrites(s2.placed[j], t)
      {
        assert c == x.channel && t.channel == c && t.composite == x.composite;
        assert Rewrites(s2.placed[n], t);
      }
    }

    /** A change by placements followed by another is one, for all the tracks looked up. */
    lemma PlacedOnlyTrans(s0: Tables, s1: Tables, s2: Tables, a: seq<TrackItem>, b: seq<TrackItem>, now: string)
      requires PlacedOnly(s0, s1, a, now) && PlacedOnly(s1, s2, b, now)
      ensures PlacedOnly(s0, s2, a + b, now)
    {
      TransPlaced(s0, s1, s2, a, b, now);
      TransHits(s0, s1, s2, a, b, now);
      TransRows(s0, s1, s2, a, b, now);
      TransGone(s0, s1, s2, a, b, now);
      TransPlaylists(s0, s1, s2, a, b, now);
    }

    /** The placements of two changes by placements line up, and so do their index entries. */
    lemma TransPlaced(s0: Tables, s1: Tables, s2: Tables, a: seq<TrackItem>, b: seq<TrackItem>, now: string)
      requires PlacedOnly(s0, s1, a, now) && PlacedOnly(s1, s2, b, now)
      ensures |s0.placed| <= |s2.placed| && s2.placed[..|s0.placed|] == s0.placed
      ensures s2.duplicates == IndexPlacements(s0.duplicates, s2.placed[|s0.placed|..])
      ensures |s2.placed| == |s0.placed| ==> s2.tracks == s0.tracks && s2.playlists == s0.playlists
    {
      IndexChain(s0.placed, s1.placed, s2.placed, s0.duplicates, s1.duplicates, s2.duplicates);
    }

    /** Each placement of either change is of a hit of a track looked up in one of them. */
    lemma TransHits(s0: Tables, s1: Tables, s2: Tables, a: seq<TrackItem>, b: seq<TrackItem>, now: string)
      requires PlacedOnly(s0, s1, a, now) && PlacedOnly(s1, s2, b, now)
      ensures forall j :: |s0.placed| <= j < |s2.placed| ==> HitOf(s2.placed[j], a + b)
    {
      forall j | |s0.placed| <= j < |s2.placed| ensures HitOf(s2.placed[j], a + b) {
        if j < |s1.placed| {
          assert s2.placed[j] == s1.placed[j];
          HitOfMore(s1.placed[j], a, a + b);
        } else {
          HitOfMore(s2.placed[j], b, a + b);
        }
      }
    }

    /** Each new track row of either change is the matched row of one of its placements. */
    lemma TransRows(s0: Tables, s1: Tables, s2: Tables, a: seq<TrackItem>, b: seq<TrackItem>, now: string)
      requires PlacedOnly(s0, s1, a, now) && PlacedOnly(s1, s2, b, now)
      ensures forall c, t :: t in Partition(s2.tracks, c) && t !in Partition(s0.tracks, c) ==>
                exists j :: |s0.placed| <= j < |s2.placed| && RowOf(t, s2.placed[j], now)
    {
      forall c, t | t in Partition(s2.tracks, c) && t !in Partition(s0.tracks, c)
        ensures exists j :: |s0.placed| <= j < |s2.placed| && RowOf(t, s2.placed[j], now)
      {
        if t in Partition(s1.tracks, c) {
          var j :| |s0.placed| <= j < |s1.placed| && RowOf(t, s1.placed[j], now);
          assert s2.placed[j] == s1.placed[j];
        }
      }
    }

    /** Each track row gone after either change was under the key of one of its placements. */
    lemma TransGone(s0: Tables, s1: Tables, s2: Tables, a: seq<TrackItem>, b: seq<TrackItem>, now: string)
      requires PlacedOnly(s0, s1, a, now) && PlacedOnly(s1, s2, b, now)
      ensures forall c, t :: t in Partition(s0.tracks, c) && t !in Partition(s2.tracks, c) ==>
                exists j :: |s0.placed| <= j < |s2.placed| && Rewrites(s2.placed[j], t)
    {
      forall c, t | t in Partition(s0.tracks, c) && t !in Partition(s2.tracks, c)
        ensures exists j :: |s0.placed| <= j < |s2.placed| && Rewrites(s2.placed[j], t)
      {
        if t !in Partition(s1.tracks, c) {
          var j :| |s0.placed| <= j < |s1.placed| && Rewrites(s1.placed[j], t);
          assert s2.placed[j] == s1.placed[j];
        }
      }
    }

    /** Two changes that create at most playlist 1 per empty channel, together, do too. */
    lemma TransPlaylists(s0: Tables, s1: Tables, s2: Tables, a: seq<TrackItem>, b: seq<TrackItem>, now: string)
      requires PlacedOnly(s0, s1, a, now) && PlacedOnly(s1, s2, b, now)
      ensures forall c :: PlaylistKept(s0.playlists, s2.playlists, c)
    {
      forall c ensures PlaylistKept(s0.playlists, s2.playlists, c) {
        assert PlaylistKept(s0.playlists, s1.playlists, c) && PlaylistKept(s1.playlists, s2.playlists, c);
      }
    }

    /** A placement beyond those of `s0` is of a hit of a looked-up track. */
    lemma PlacementHasHit(s0: Tables, s: Tables, looked: seq<TrackItem>, now: string)
      requires PlacedOnly(s0, s, looked, now) && |s0.placed| < |s.placed|
      ensures exists t :: t in looked && BestMatch(t.name).Some?
    {
      assert HitOf(s.placed[|s0.placed|], looked);
    }

    /** Looking up tracks none of which has a hit changes no table. */
    lemma NoHitNoChange(s0: Tables, s: Tables, looked: seq<TrackItem>, now: string)
      requires PlacedOnly(s0, s, looked, now)
      ensures (forall t :: t in looked ==> BestMatch(t.name).None?) ==> s == s0
    {
      if |s0.placed| < |s.placed| {
        PlacementHasHit(s0, s, looked, now);
      } else {
        assert s.placed == s.placed[..|s0.placed|];
        assert s.placed[|s0.placed|..] == [];
      }
    }

    /**
     * The part of spotify_lookup after a hit `m` that is not a duplicate,
     * from state `w`: get the channel's playlist (creating it when there is
     * none), prepend the hit to it, index the pair and mark the track row
     * matched.  With no playlist and no channel row it is an IndexError and
     * nothing changes.
     */
    ghost function Place(w: State, record: TrackItem, m: SpotifyTrack, now: string): (r: After)
      requires Shaped(w.tables)
      ensures Shaped(r.state.tables)
    {
      var t := w.tables;
      var next := sp.mint(w.created);
      var choice := PlaylistChoice(channels, t.playlists, next, record.channel);
      if choice.None? then After(w, Fail(IndexError))
      else
        var pl := choice.value.id;
        var creations := CreationCalls(user, channels, t.playlists, record.channel);
        var p := Placement(record.channel, record.composite, m.uri, pl);
        var item := Matched(record, m, pl, now);
        After(State(Tables(UpdateTrack(t.tracks, item),
                           PlaylistsAfter(channels, t.playlists, next, record.channel),
                           t.duplicates[(p.channel, p.uri) := pl],
                           t.placed + [p]),
                    w.calls + creations + [AddTracksCall(user, pl, [m.uri], 0)],
                    w.created + |creations|),
              Pass)
    }

    /** spotify_lookup of track `x` from state `w`: search, then place a hit that is not a duplicate. */
    ghost function Lookup(w: State, x: TrackItem, now: string): (r: After)
      requires Shaped(w.tables)
      ensures Shaped(r.state.tables)
    {
      var search := SearchCall(QueryFor(split, x.name), 1, "track");
      var searched := State(w.tables, w.calls + [search], w.created);
      var m := BestMatch(x.name);
      if m.None? || (x.channel, m.value.uri) in w.tables.duplicates then After(searched, Pass)
      else Place(searched, x, m.value, now)
    }

    /** Looking up `xs` in order from state `w`, stopping at the first failure. */
    ghost function LookupAll(w: State, xs: seq<TrackItem>, now: string): (r: After)
      requires Shaped(w.tables)
      ensures Shaped(r.state.tables)
      decreases |xs|
    {
      if xs == [] then After(w, Pass)
      else
        var before := LookupAll(w, xs[..|xs| - 1], now);
        if before.outcome.Fail? then before else Lookup(before.state, xs[|xs| - 1], now)
    }

    /** Placing a pair the index does not hold keeps the state consistent. */
    lemma PlaceKeepsConsistent(w: State, record: TrackItem, m: SpotifyTrack, now: string)
      requires Consistent(w) && (record.channel, m.uri) !in w.tables.duplicates
      ensures Consistent(Place(w, record, m, now).state)
    {
      var t := w.tables;
      var choice := PlaylistChoice(channels, t.playlists, sp.mint(w.created), record.channel);
      if choice.Some? {
        var pl := choice.value.id;
        PlacementKeepsIndex(t.tracks, t.placed, t.duplicates, Placement(record.channel, record.composite, m.uri, pl), Matched(record, m, pl, now));
      }
    }

    /** A lookup keeps the state consistent: it places only pairs the index does not hold. */
    lemma LookupKeepsConsistent(w: State, x: TrackItem, now: string)
      requires Consistent(w)
      ensures Consistent(Lookup(w, x, now).state)
    {
      var search := SearchCall(QueryFor(split, x.name), 1, "track");
      var m := BestMatch(x.name);
      if m.Some? && (x.channel, m.value.uri) !in w.tables.duplicates {
        PlaceKeepsConsistent(State(w.tables, w.calls + [search], w.created), x, m.value, now);
      }
    }

    /** Looking up tracks in order keeps the state consistent. */
    lemma {:induction false} LookupAllKeepsConsistent(w: State, xs: seq<TrackItem>, now: string)
      requires Consistent(w)
      ensures Consistent(LookupAll(w, xs, now).state)
      decreases |xs|
    {
      if xs != [] {
        var before := LookupAll(w, xs[..|xs| - 1], now);
        LookupAllKeepsConsistent(w, xs[..|xs| - 1], now);
        if before.outcome.Pass? {
          LookupKeepsConsistent(before.state, xs[|xs| - 1], now);
        }
      }
    }

    /** A placement logs exactly its prepend. */
    lemma PlaceKeepsLogged(w: State, record: TrackItem, m: SpotifyTrack, now: string)
      requires Shaped(w.tables) && Logged(w)
      ensures Logged(Place(w, record, m, now).state)
    {
      var t := w.tables;
      var choice := PlaylistChoice(channels, t.playlists, sp.mint(w.created), record.channel);
      if choice.Some? {
        PlacementKeepsLog(user, t.placed, w.calls, CreationCalls(user, channels, t.playlists, record.channel),
                          Placement(record.channel, record.composite, m.uri, choice.value.id));
      }
    }

    /** A lookup keeps the log exact: the Spotify playlist mutations stay the placements, in order. */
    lemma LookupKeepsLogged(w: State, x: TrackItem, now: string)
      requires Shaped(w.tables) && Logged(w)
      ensures Logged(Lookup(w, x, now).state)
    {
      var search := SearchCall(QueryFor(split, x.name), 1, "track");
      FilterAppendDropped(w.calls, [search], IsPrepend);
      var m := BestMatch(x.name);
      if m.Some? && (x.channel, m.value.uri) !in w.tables.duplicates {
        PlaceKeepsLogged(State(w.tables, w.calls + [search], w.created), x, m.value, now);
      }
    }

    /** Looking up tracks in order keeps the log exact. */
    lemma {:induction false} LookupAllKeepsLogged(w: State, xs: seq<TrackItem>, now: string)
      requires Shaped(w.tables) && Logged(w)
      ensures Logged(LookupAll(w, xs, now).state)
      decreases |xs|
    {
      if xs != [] {
        var before := LookupAll(w, xs[..|xs| - 1], now);
        LookupAllKeepsLogged(w, xs[..|xs| - 1], now);
        if before.outcome.Pass? {
          LookupKeepsLogged(before.state, xs[|xs| - 1], now);
        }
      }
    }

    /** One more track: a failure so far stands, otherwise the track is looked up next. */
    lemma LookupAllStep(w: State, xs: seq<TrackItem>, x: TrackItem, now: string)
      requires Shaped(w.tables)
      ensures var before := LookupAll(w, xs, now);
        LookupAll(w, xs + [x], now) == if before.outcome.Fail? then before else Lookup(before.state, x, now)
    {
      assert (xs + [x])[..|xs|] == xs;
    }

    /**
     * What one lookup does.  Exactly one search, for the query built from
     * the track name.  Without a hit, or with a hit whose pair the index
     * already holds, nothing else.  With a new hit and neither a playlist
     * nor a channel row, an IndexError and nothing else.  Otherwise at most
     * one playlist creation and exactly one prepend of the hit's uri, at
     * position 0, to the playlist that is afterwards the channel's
     * highest-num one; the pair is indexed with that playlist, and the
     * matched track row is in the channel's partition.
     */
    lemma LookupCases(w: State, x: TrackItem, now: string)
      requires Shaped(w.tables)
      ensures var r := Lookup(w, x, now);
        Searches(r.state.calls) == Searches(w.calls) + [SearchCall(QueryFor(split, x.name), 1, "track")]
      ensures var r, m := Lookup(w, x, now), BestMatch(x.name);
        m.None? || (x.channel, m.value.uri) in w.tables.duplicates ==>
          && r.outcome == Pass && r.state.tables == w.tables && r.state.created == w.created
          && Prepends(r.state.calls) == Prepends(w.calls) && Creates(r.state.calls) == Creates(w.calls)
      ensures var r, m := Lookup(w, x, now), BestMatch(x.name);
        var choice := PlaylistChoice(channels, w.tables.playlists, sp.mint(w.created), x.channel);
        m.Some? && (x.channel, m.value.uri) !in w.tables.duplicates && choice.None? ==>
          && r.outcome == Fail(IndexError) && r.state.tables == w.tables && r.state.created == w.created
          && Prepends(r.state.calls) == Prepends(w.calls) && Creates(r.state.calls) == Creates(w.calls)
      ensures var r, m := Lookup(w, x, now), BestMatch(x.name);
        var choice := PlaylistChoice(channels, w.tables.playlists, sp.mint(w.created), x.channel);
        var creations := CreationCalls(user, channels, w.tables.playlists, x.channel);
        m.Some? && (x.channel, m.value.uri) !in w.tables.duplicates && choice.Some? ==>
          && r.outcome == Pass
          && r.state.created == w.created + |creations| && |creations| <= 1
          && Creates(r.state.calls) == Creates(w.calls) + creations
          && Prepends(r.state.calls) == Prepends(w.calls) + [AddTracksCall(user, choice.value.id, [m.value.uri], 0)]
          && LastPlaylist(Partition(r.state.tables.playlists, x.channel)) == choice
          && r.state.tables.duplicates == w.tables.duplicates[(x.channel, m.value.uri) := choice.value.id]
          && Matched(x, m.value, choice.value.id, now) in Partition(r.state.tables.tracks, x.channel)
          && r.state.tables.placed == w.tables.placed + [Placement(x.channel, x.composite, m.value.uri, choice.value.id)]
    {
      var search := SearchCall(QueryFor(split, x.name), 1, "track");
      var calls1 := w.calls + [search];
      FilterAppendKept(w.calls, search, IsSearch);
      FilterAppendDropped(w.calls, [search], IsPrepend);
      FilterAppendDropped(w.calls, [search], IsCreate);
      var m := BestMatch(x.name);
      if m.Some? && (x.channel, m.value.uri) !in w.tables.duplicates {
        var choice := PlaylistChoice(channels, w.tables.playlists, sp.mint(w.created), x.channel);
        if choice.Some? {
          var creations := CreationCalls(user, channels, w.tables.playlists, x.channel);
          var add := AddTracksCall(user, choice.value.id, [m.value.uri], 0);
          FilterAppendDropped(calls1, creations, IsSearch);
          FilterAppendDropped(calls1 + creations, [add], IsSearch);
          FilterAppendDropped(calls1, creations, IsPrepend);
          FilterAppendKept(calls1 + creations, add, IsPrepend);
          FilterConcat(calls1, creations, IsCreate);
          FilterAllKept(creations, IsCreate);
          FilterAppendDropped(calls1 + creations, [add], IsCreate);
          UpdateTrackFacts(w.tables.tracks, Matched(x, m.value, choice.value.id, now));
        }
      }
    }

    /**
     * Looking the same track up again changes no table: its hit is now
     * indexed for the channel, or, after an IndexError, nothing changed and
     * the same error recurs.
     */
    lemma LookupTwice(w: State, x: TrackItem, now: string)
      requires Shaped(w.tables)
      ensures var r := Lookup(w, x, now);
        Lookup(r.state, x, now).state.tables == r.state.tables
    {
      LookupCases(w, x, now);
      LookupCases(Lookup(w, x, now).state, x, now);
    }

    /** A lookup changes the tables only by a placement of its track's hit. */
    lemma LookupPlacedOnly(w: State, x: TrackItem, now: string)
      requires Shaped(w.tables)
      ensures PlacedOnly(w.tables, Lookup(w, x, now).state.tables, [x], now)
    {
      var r := Lookup(w, x, now);
      var m := BestMatch(x.name);
      var choice := PlaylistChoice(channels, w.tables.playlists, sp.mint(w.created), x.channel);
      if m.Some? && (x.channel, m.value.uri) !in w.tables.duplicates && choice.Some? {
        PlacedOnlyPlacement(w.tables, r.state.tables, x, m.value, choice.value.id, now);
      } else {
        PlacedOnlyRefl(w.tables, [x], now);
      }
    }

    /** Looking up tracks in order changes the tables only by placements of their hits. */
    lemma {:induction false} LookupAllPlacedOnly(w: State, xs: seq<TrackItem>, now: string)
      requires Shaped(w.tables)
      ensures PlacedOnly(w.tables, LookupAll(w, xs, now).state.tables, xs, now)
      decreases |xs|
    {
      if xs == [] {
        PlacedOnlyRefl(w.tables, xs, now);
      } else {
        var front, x := xs[..|xs| - 1], xs[|xs| - 1];
        assert xs == front + [x];
        var before := LookupAll(w, front, now);
        LookupAllPlacedOnly(w, front, now);
        if before.outcome.Fail? {
          PlacedOnlyLooked(w.tables, before.state.tables, front, xs, now);
        } else {
          LookupPlacedOnly(before.state, x, now);
          PlacedOnlyTrans(w.tables, before.state.tables, Lookup(before.state, x, now).state.tables, front, [x], now);
        }
      }
    }

    /** Looking up tracks in order that all pass issues exactly their searches, in order. */
    lemma {:induction false} LookupAllSearches(w: State, xs: seq<TrackItem>, now: string)
      requires Shaped(w.tables)
      ensures var r := LookupAll(w, xs, now);
        r.outcome.Pass? ==> Searches(r.state.calls) == Searches(w.calls) + SearchCalls(split, xs)
      decreases |xs|
    {
      if xs != [] {
        var front, x := xs[..|xs| - 1], xs[|xs| - 1];
        assert xs == front + [x];
        var before := LookupAll(w, front, now);
        LookupAllSearches(w, front, now);
        if before.outcome.Pass? {
          LookupCases(before.state, x, now);
          SearchCallsStep(split, Searches(w.calls), front, x);
        }
      }
    }

    /** A track of a channel that has a channel row is looked up without failure. */
    lemma LookupPasses(w: State, x: TrackItem, channel: Channel, now: string)
      requires Shaped(w.tables)
      requires channel in channels && x.channel == channel.id
      ensures Lookup(w, x, now).outcome == Pass
    {
      assert PlaylistChoice(channels, w.tables.playlists, sp.mint(w.created), x.channel).Some?;
    }

    /** One more track of a channel that has a channel row: it is looked up next, without failure. */
    lemma BatchStep(w: State, xs: seq<TrackItem>, x: TrackItem, channel: Channel, now: string)
      requires Shaped(w.tables)
      requires channel in channels && x.channel == channel.id
      requires LookupAll(w, xs, now).outcome == Pass
      ensures var before := LookupAll(w, xs, now).state;
        && LookupAll(w, xs + [x], now) == Lookup(before, x, now)
        && Lookup(before, x, now).outcome == Pass
    {
      LookupAllStep(w, xs, x, now);
      LookupPasses(LookupAll(w, xs, now).state, x, channel, now);
    }

    /** Tracks of one channel that has a channel row are all looked up without failure. */
    lemma {:induction false} LookupAllPasses(w: State, xs: seq<TrackItem>, channel: Channel, now: string)
      requires Shaped(w.tables)
      requires channel in channels && forall x :: x in xs ==> x.channel == channel.id
      ensures LookupAll(w, xs, now).outcome == Pass
      decreases |xs|
    {
      if xs != [] {
        var front, x := xs[..|xs| - 1], xs[|xs| - 1];
        assert forall y :: y in front ==> y in xs;
        assert x in xs;
        LookupAllPasses(w, front, channel, now);
        LookupPasses(LookupAll(w, front, now).state, x, channel, now);
      }
    }

    /** Once the image of a record fails, the images of the further records change nothing more. */
    lemma ImagesFailed(w: State, records: seq<StreamRecord>, k: nat, now: string)
      requires Shaped(w.tables)
      requires k <= |records| && LookupAll(w, QualifyingImages(records[..k]), now).outcome.Fail?
      ensures QualifyingImages(records) != []
      ensures LookupAll(w, QualifyingImages(records), now) == LookupAll(w, QualifyingImages(records[..k]), now)
    {
      var pre := QualifyingImages(records[..k]);
      QualifyingPrefix(records, k);
      LookupAllFailed(w, QualifyingImages(records), |pre|, now);
    }

    /** Once a track fails, looking up further tracks changes nothing more. */
    lemma {:induction false} LookupAllFailed(w: State, xs: seq<TrackItem>, k: nat, now: string)
      requires Shaped(w.tables)
      requires k <= |xs| && LookupAll(w, xs[..k], now).outcome.Fail?
      ensures LookupAll(w, xs, now) == LookupAll(w, xs[..k], now)
      decreases |xs| - k
    {
      if k < |xs| {
        assert xs[..k + 1][..k] == xs[..k];
        LookupAllFailed(w, xs, k + 1, now);
      } else {
        assert xs[..k] == xs;
      }
    }

    /**
     * Lookups of tracks none of which lies after key `k` in channel `c`
     * leave the rows of `c` after `k` exactly as they were: a lookup
     * rewrites only the row of the track it looks up.
     */
    lemma RowsAfterKept(s0: Tables, s: Tables, looked: seq<TrackItem>, now: string, c: string, k: string)
      requires PlacedOnly(s0, s, looked, now)
      requires TracksWellFormed(s0.tracks) && TracksWellFormed(s.tracks)
      requires forall x :: x in looked && x.channel == c ==> !Below(k, x.composite)
      ensures AfterKey(Partition(s.tracks, c), TrackComposite, k) == AfterKey(Partition(s0.tracks, c), TrackComposite, k)
    {
      var p0, p := Partition(s0.tracks, c), Partition(s.tracks, c);
      assert StrictlySorted(p0, TrackComposite) && StrictlySorted(p, TrackComposite);
      AfterKeySorted(p0, TrackComposite, k);
      AfterKeySorted(p, TrackComposite, k);
      SortedSameItems(AfterKey(p, TrackComposite, k), AfterKey(p0, TrackComposite, k), TrackComposite);
    }

    /**
     * A batch invocation from coherent cursors whose page carried a key
     * leaves the sweep where it stopped: the unmatched rows of the channel
     * after the track cursor are exactly this page's tracks followed by the
     * unmatched rows the next invocation reads from the cursor it saved,
     * in the track table as this invocation's lookups left it.
     */
    lemma NextBatchReadsTheRest(w: State, cursors: Cursors, now: string)
      requires Shaped(w.tables) && StrictlySorted(channels, ChannelId) && Coherent(channels, cursors)
      ensures var tracks := w.tables.tracks;
        var sel := SelectChannel(channels, GetItem(cursors, CHANNEL_CURSOR));
        var entry := GetItem(WithCursor(cursors, CHANNEL_CURSOR, sel.cursor), TRACK_CURSOR);
        var ch := sel.outcome.value.items[0].id;
        var page := NextTracks(tracks, ch, entry).value;
        var after := LookupAll(w, BatchTracks(channels, tracks, cursors), now).state.tables.tracks;
        var next := TrackStart(GetItem(BatchCursors(channels, tracks, cursors), TRACK_CURSOR));
        page.lastKey.Some? ==>
          Seqs.Filter(Remaining(Partition(tracks, ch), TrackComposite, TrackStart(entry)), Unmatched)
          == page.items + Seqs.Filter(Remaining(Partition(after, ch), TrackComposite, next), Unmatched)
    {
      var tracks := w.tables.tracks;
      BatchKeepsCoherent(channels, tracks, cursors);
      BatchContinues(channels, tracks, cursors);
      var sel := SelectChannel(channels, GetItem(cursors, CHANNEL_CURSOR));
      var entry := GetItem(WithCursor(cursors, CHANNEL_CURSOR, sel.cursor), TRACK_CURSOR);
      var ch := sel.outcome.value.items[0].id;
      var page := NextTracks(tracks, ch, entry).value;
      if page.lastKey.Some? {
        var xs := BatchTracks(channels, tracks, cursors);
        assert xs == page.items;
        var r := LookupAll(w, xs, now).state.tables;
        NextTracksResumes(tracks, ch, entry);
        NextTracksUpToLastKey(tracks, ch, entry);
        LookupAllPlacedOnly(w, xs, now);
        RowsAfterKept(w.tables, r, xs, now, ch, page.lastKey.value.sort);
      }
    }

    /** get_cursor: the cursor row `name`, if there is one. */
    method GetCursor(name: string) returns (r: Option<CursorItem>)
      ensures r == GetItem(cursors, name)
      ensures r.Some? <==> name in cursors
    {
      r := if name in cursors then Some(cursors[name]) else None;
    }

    /** set_cursor: put_item of the row (name, position). */
    method SetCursor(name: string, position: Key)
      modifies this`cursors
      ensures cursors == old(cursors)[name := CursorItem(Some(position))]
    {
      cursors := cursors[name := CursorItem(Some(position))];
    }

    /** delete_item of the cursor row `name`. */
    method DeleteCursor(name: string)
      modifies this`cursors
      ensures cursors == old(cursors) - {name}
    {
      cursors := cursors - {name};
    }

    /** get_current_or_next_channel, proved to do what SelectChannel says. */
    method GetCurrentOrNextChannel() returns (r: Result<Page<Channel>>)
      requires StrictlySorted(channels, ChannelId)
      modifies this`cursors
      ensures var sel := SelectChannel(channels, GetItem(old(cursors), CHANNEL_CURSOR));
        r == sel.outcome && cursors == WithCursor(old(cursors), CHANNEL_CURSOR, sel.cursor)
      decreases if CHANNEL_CURSOR in cursors then 1 else 0
    {
      var item := GetCursor(CHANNEL_CURSOR);
      var page: Page<Channel>;
      if item.Some? && item.value.value.Some? {
        var start := item.value.value.value;
        if start.partition != HOST {
          assert cursors == WithCursor(cursors, CHANNEL_CURSOR, item);
          return Err(StartKeyOutsideQuery);
        }
        page := Query(HOST, channels, ChannelId, Some(start.sort), 1, AnyChannel);
      } else {
        // no cursor, query first
        page := Query(HOST, channels, ChannelId, None, 1, AnyChannel);
      }
      if page.lastKey.None? {
        // no next channel: re-initialize the cursor and retry
        DeleteCursor(CHANNEL_CURSOR);
        if item.Some? && item.value.value.Some? {
          r := GetCurrentOrNextChannel();
        } else {
          // the retry would repeat this same query and deletion without end
          r := Err(RecursionError);
        }
        return;
      }
      assert item.Some? ==> cursors == WithCursor(cursors, CHANNEL_CURSOR, item);
      r := Ok(page);
    }

    /** save_cursors, proved to do what SavedCursors says. */
    method SaveCursors(justProcessedTracks: Page<TrackItem>, justProcessedChannel: Page<Channel>)
      modifies this`cursors
      ensures cursors == SavedCursors(old(cursors), justProcessedTracks.lastKey, justProcessedChannel.lastKey)
    {
      if justProcessedTracks.lastKey.Some? {
        SetCursor(TRACK_CURSOR, justProcessedTracks.lastKey.value);
      } else {
        DeleteCursor(TRACK_CURSOR);
        if justProcessedChannel.lastKey.Some? {
          SetCursor(CHANNEL_CURSOR, justProcessedChannel.lastKey.value);
        }
      }
    }

    /** get_next_tracks, proved to do what NextTracks says. */
    method GetNextTracks(channelId: string) returns (r: Result<Page<TrackItem>>)
      ensures r == NextTracks(tracks, channelId, GetItem(cursors, TRACK_CURSOR))
    {
      var item := GetCursor(TRACK_CURSOR);
      var part := Partition(tracks, channelId);
      if item.Some? {
        if item.value.value.None? {
          // reading value['yt_track_composite'] for the log line fails
          return Err(KeyError);
        }
        var start := item.value.value.value;
        if start.partition != channelId {
          return Err(StartKeyOutsideQuery);
        }
        r := Ok(Query(channelId, part, TrackComposite, Some(start.sort), BATCH_GET_SIZE, Unmatched));
      } else {
        r := Ok(Query(channelId, part, TrackComposite, None, BATCH_GET_SIZE, Unmatched));
      }
    }

    /** find_on_spotify: one search with limit 1, answering its first hit. */
    method FindOnSpotify(trackName: string) returns (m: Option<SpotifyTrack>)
      modifies sp`calls
      ensures sp.calls == old(sp.calls) + [SearchCall(QueryFor(split, trackName), 1, "track")]
      ensures m == BestMatch(trackName)
    {
      var query := BuildQuery(trackName, split(trackName));
      var items := sp.Search(query, 1, "track");
      m := if items == [] then None else Some(items[0]);
    }

    /** is_track_duplicate: whether the duplicate index holds (channel, uri). */
    method IsTrackDuplicate(channelId: string, uri: string) returns (b: bool)
      ensures b <==> (channelId, uri) in duplicates
    {
      b := (channelId, uri) in duplicates;
    }

    /** add_track_to_duplicate_index: put_item (channel, uri) -> playlist. */
    method AddTrackToDuplicateIndex(channelId: string, uri: string, playlist: string)
      modifies this`duplicates
      ensures duplicates == old(duplicates)[(channelId, uri) := playlist]
    {
      duplicates := duplicates[(channelId, uri) := playlist];
    }

    /** get_last_playlist_for_channel: the channel's highest-num playlist row, if any. */
    method GetLastPlaylistForChannel(channelId: string) returns (r: Option<PlaylistEntry>)
      requires PlaylistsWellFormed(playlists)
      ensures r.None? <==> Partition(playlists, channelId) == []
      ensures r.Some? ==> r.value in Partition(playlists, channelId)
      ensures r.Some? ==> forall e :: e in Partition(playlists, channelId) ==> e.num <= r.value.num
    {
      r := LastPlaylist(Partition(playlists, channelId));
    }

    /**
     * create_playlist_for_channel: find the channel's name, create a public
     * playlist of that name, record it with num 1.  A channel id the channel
     * table does not hold raises IndexError before anything is created.
     */
    method CreatePlaylistForChannel(channelId: string) returns (r: Result<PlaylistEntry>)
      requires PlaylistsWellFormed(playlists)
      modifies this`playlists, sp
      ensures PlaylistsWellFormed(playlists)
      ensures FindChannel(channels, channelId).None? ==>
                r == Err(IndexError) && playlists == old(playlists)
                && sp.calls == old(sp.calls) && sp.created == old(sp.created)
      ensures FindChannel(channels, channelId).Some? ==>
                var e := PlaylistEntry(1, sp.mint(old(sp.created)));
                && r == Ok(e)
                && playlists == old(playlists)[channelId := PutPlaylist(Partition(old(playlists), channelId), e)]
                && sp.calls == old(sp.calls) + [CreateCall(user, FindChannel(channels, channelId).value.name, true)]
                && sp.created == old(sp.created) + 1
    {
      var num := 1;
      var channel := FindChannel(channels, channelId);
      if channel.None? {
        return Err(IndexError);
      }
      var id := sp.UserPlaylistCreate(user, channel.value.name, true);
      playlists := playlists[channelId := PutPlaylist(Partition(playlists, channelId), PlaylistEntry(num, id))];
      r := Ok(PlaylistEntry(num, id));
    }

    /**
     * get_playlist_for_channel: reuse the highest-num playlist, or create
     * one.  Afterwards the answer is the channel's highest-num playlist, so
     * asking again creates nothing.
     */
    method GetPlaylistForChannel(channelId: string) returns (r: Result<PlaylistEntry>)
      requires PlaylistsWellFormed(playlists)
      modifies this`playlists, sp
      ensures PlaylistsWellFormed(playlists)
      ensures var choice := PlaylistChoice(channels, old(playlists), sp.mint(old(sp.created)), channelId);
        r == (if choice.Some? then Ok(choice.value) else Err(IndexError))
      ensures var creations := CreationCalls(user, channels, old(playlists), channelId);
        && sp.calls == old(sp.calls) + creations
        && sp.created == old(sp.created) + |creations|
        && (creations == [] ==> playlists == old(playlists))
        && (creations != [] ==> playlists == old(playlists)[channelId := [r.value]] && r.value.num == 1)
      ensures playlists == PlaylistsAfter(channels, old(playlists), sp.mint(old(sp.created)), channelId)
      ensures r.Ok? ==> LastPlaylist(Partition(playlists, channelId)) == Some(r.value)
    {
      var last := GetLastPlaylistForChannel(channelId);
      if last.Some? {
        return Ok(last.value);
      }
      r := CreatePlaylistForChannel(channelId);
    }

    /**
     * add_track_to_spotify_playlist: prepend the track to the channel's
     * playlist (position 0), then record (channel, uri) in the duplicate index.
     */
    method AddTrackToSpotifyPlaylist(uri: string, channelId: string) returns (r: Result<string>)
      requires PlaylistsWellFormed(playlists)
      modifies this`playlists, this`duplicates, sp
      ensures PlaylistsWellFormed(playlists)
      ensures var choice := PlaylistChoice(channels, old(playlists), sp.mint(old(sp.created)), channelId);
        choice.None? ==>
          r == Err(IndexError) && playlists == old(playlists) && duplicates == old(duplicates)
          && sp.calls == old(sp.calls) && sp.created == old(sp.created)
      ensures var choice := PlaylistChoice(channels, old(playlists), sp.mint(old(sp.created)), channelId);
        choice.Some? ==>
          && r == Ok(choice.value.id)
          && duplicates == old(duplicates)[(channelId, uri) := choice.value.id]
          && playlists == PlaylistsAfter(channels, old(playlists), sp.mint(old(sp.created)), channelId)
          && sp.calls == old(sp.calls) + CreationCalls(user, channels, old(playlists), channelId)
                         + [AddTracksCall(user, choice.value.id, [uri], 0)]
          && sp.created == old(sp.created) + |CreationCalls(user, channels, old(playlists), channelId)|
    {
      var playlist := GetPlaylistForChannel(channelId);
      if playlist.Err? {
        return Err(playlist.error);
      }
      sp.UserPlaylistAddTracks(user, playlist.value.id, [uri], 0);
      AddTrackToDuplicateIndex(channelId, uri, playlist.value.id);
      r := Ok(playlist.value.id);
    }

    /**
     * The part of spotify_lookup after a hit that is not a duplicate: the
     * track is prepended to the channel's playlist, the pair is indexed,
     * and the track row is marked matched.
     */
    method PlaceMatch(record: TrackItem, m: SpotifyTrack, now: string) returns (o: Outcome)
      requires Valid()
      requires (record.channel, m.uri) !in duplicates
      modifies this`tracks, this`playlists, this`duplicates, this`placed, sp
      ensures Valid()
      ensures After(Now(), o) == Place(old(Now()), record, m, now)
    {
      ghost var w := Now();
      ghost var r := Place(w, record, m, now);
      PlaceKeepsConsistent(w, record, m, now);
      var playlist := AddTrackToSpotifyPlaylist(m.uri, record.channel);
      if playlist.Err? {
        assert Now() == w;
        return Fail(playlist.error);
      }
      placed := placed + [Placement(record.channel, record.composite, m.uri, playlist.value)];
      tracks := UpdateTrack(tracks, Matched(record, m, playlist.value, now));
      o := Pass;
      assert Snapshot() == r.state.tables;
      assert Now() == r.state;
    }

    /**
     * spotify_lookup.  No hit, or a hit whose (channel, uri) pair is already
     * in the duplicate index: nothing but the search happens.  Otherwise
     * PlaceMatch does the rest.  LookupCases says what that amounts to.
     */
    method SpotifyLookup(record: TrackItem, now: string) returns (o: Outcome)
      requires Valid()
      modifies this`tracks, this`playlists, this`duplicates, this`placed, sp
      ensures Valid()
      ensures After(Now(), o) == Lookup(old(Now()), record, now)
    {
      LookupKeepsConsistent(Now(), record, now);
      var info := FindOnSpotify(record.name);
      if info.None? {
        return Pass;
      }
      var m := info.value;
      var duplicate := IsTrackDuplicate(record.channel, m.uri);
      if duplicate {
        return Pass;
      }
      o := PlaceMatch(record, m, now);
    }

    /**
     * handle.  With stream Records: look up every record whose NewImage has
     * no spotify_uri, in order; cursors are not touched.  Without: select a
     * channel, read its next tracks, look each one up, save the cursors.
     */
    method Handle(event: Event, now: string) returns (o: Outcome)
      requires Valid()
      modifies this`tracks, this`playlists, this`duplicates, this`placed, this`cursors, sp
      ensures Valid()
      ensures event.records.Some? ==>
                && cursors == old(cursors)
                && After(Now(), o) == LookupAll(old(Now()), QualifyingImages(event.records.value), now)
      ensures event.records.Some? && QualifyingImages(event.records.value) == [] ==> o == Pass && unchanged(this, sp)
      ensures event.records.None? ==>
                && Now() == LookupAll(old(Now()), BatchTracks(channels, old(tracks), old(cursors)), now).state
                && cursors == BatchCursors(channels, old(tracks), old(cursors))
      ensures event.records.None? && old(Coherent(channels, cursors)) ==>
                o == Pass && Coherent(channels, cursors)
      ensures event.records.Some? ==> PlacedOnly(old(Snapshot()), Snapshot(), QualifyingImages(event.records.value), now)
      ensures event.records.Some? && o.Pass? ==>
                Searches(sp.calls) == Searches(old(sp.calls)) + SearchCalls(split, QualifyingImages(event.records.value))
      ensures event.records.None? ==> PlacedOnly(old(Snapshot()), Snapshot(), BatchTracks(channels, old(tracks), old(cursors)), now)
      ensures old(Logged(Now())) ==> Logged(Now())
    {
      ghost var w := Now();
      ghost var looked: seq<TrackItem>;
      if event.records.Some? {
        looked := QualifyingImages(event.records.value);
        o := HandleRecords(event.records.value, now);
        LookupAllSearches(w, looked, now);
      } else {
        looked := BatchTracks(channels, tracks, cursors);
        o := Rediscover(now);
      }
      LookupAllPlacedOnly(w, looked, now);
      if Logged(w) {
        LookupAllKeepsLogged(w, looked, now);
      }
    }

    /**
     * One turn of handle's reactive loop: look the record's image up when
     * it has one without a spotify_uri; otherwise do nothing at all.
     */
    method LookUpRecord(record: StreamRecord, now: string) returns (o: Outcome)
      requires Valid()
      modifies this`tracks, this`playlists, this`duplicates, this`placed, sp
      ensures Valid()
      ensures !Qualifies(record) ==> o == Pass && unchanged(this, sp)
      ensures Qualifies(record) ==> After(Now(), o) == Lookup(old(Now()), record.newImage.value, now)
    {
      o := Pass;
      if record.newImage.Some? && record.newImage.value.spotifyUri.None? {
        o := SpotifyLookup(record.newImage.value, now);
      }
    }

    /** The reactive branch of handle: the qualifying images are looked up in stream order. */
    method HandleRecords(records: seq<StreamRecord>, now: string) returns (o: Outcome)
      requires Valid()
      modifies this`tracks, this`playlists, this`duplicates, this`placed, sp
      ensures Valid()
      ensures After(Now(), o) == LookupAll(old(Now()), QualifyingImages(records), now)
      ensures QualifyingImages(records) == [] ==> o == Pass && unchanged(this, sp)
    {
      o := Pass;
      ghost var done: seq<TrackItem> := [];
      var i := 0;
      while i < |records|
        invariant 0 <= i <= |records|
        invariant done == QualifyingImages(records[..i])
        invariant Valid() && o == Pass
        invariant After(Now(), o) == LookupAll(old(Now()), done, now)
        invariant done == [] ==> unchanged(this, sp)
      {
        ghost var before := Now();
        QualifyingStep(records, i);
        o := LookUpRecord(records[i], now);
        if Qualifies(records[i]) {
          LookupAllStep(old(Now()), done, records[i].newImage.value, now);
          done := done + [records[i].newImage.value];
          if o.Fail? {
            ImagesFailed(old(Now()), records, i + 1, now);
            return;
          }
        } else {
          assert Now() == before;
        }
        i := i + 1;
      }
      assert records[..i] == records;
    }

    /**
     * The loop of handle's batch branch: look up each track read from one
     * channel's partition, in order.  Since the channel has a row, a
     * playlist is always found or created and no lookup fails.
     */
    method LookUpBatch(items: seq<TrackItem>, channel: Channel, now: string) returns (o: Outcome)
      requires Valid()
      requires channel in channels
      requires forall k :: 0 <= k < |items| ==> items[k].channel == channel.id
      modifies this`tracks, this`playlists, this`duplicates, this`placed, sp
      ensures Valid()
      ensures o == Pass
      ensures After(Now(), o) == LookupAll(old(Now()), items, now)
    {
      o := Pass;
      ghost var done: seq<TrackItem> := [];
      var i := 0;
      while i < |items|
        invariant 0 <= i <= |items|
        invariant |done| == i && forall k :: 0 <= k < i ==> done[k] == items[k]
        invariant Valid() && o == Pass
        invariant After(Now(), o) == LookupAll(old(Now()), done, now)
      {
        BatchStep(old(Now()), done, items[i], channel, now);
        o := SpotifyLookup(items[i], now);
        done := done + [items[i]];
        i := i + 1;
      }
      assert done == items;
    }

    /** The batch branch of handle: one step of the rediscovery sweep. */
    method Rediscover(now: string) returns (o: Outcome)
      requires Valid()
      modifies this`tracks, this`playlists, this`duplicates, this`placed, this`cursors, sp
      ensures Valid()
      ensures Now() == LookupAll(old(Now()), BatchTracks(channels, old(tracks), old(cursors)), now).state
      ensures cursors == BatchCursors(channels, old(tracks), old(cursors))
      ensures old(Coherent(channels, cursors)) ==> o == Pass && Coherent(channels, cursors)
    {
      ghost var w := Now();
      ghost var sel := SelectChannel(channels, GetItem(cursors, CHANNEL_CURSOR));
      ghost var selected := WithCursor(cursors, CHANNEL_CURSOR, sel.cursor);
      if Coherent(channels, cursors) {
        BatchKeepsCoherent(channels, tracks, cursors);
      }
      var channelToProcess := GetCurrentOrNextChannel();
      if channelToProcess.Err? {
        assert Now() == w;
        return Fail(channelToProcess.error);
      }
      var channel := channelToProcess.value.items[0];
      var tracksToProcess := GetNextTracks(channel.id);
      ghost var page := NextTracks(tracks, channel.id, GetItem(selected, TRACK_CURSOR));
      assert tracksToProcess == page;
      if tracksToProcess.Err? {
        assert Now() == w;
        return Fail(tracksToProcess.error);
      }
      var items := tracksToProcess.value.items;
      assert Now() == w && Consistent(w);
      assert BatchTracks(channels, tracks, old(cursors)) == items;
      assert BatchCursors(channels, tracks, old(cursors)) == SavedCursors(selected, page.value.lastKey, sel.outcome.value.lastKey);
      o := LookUpBatch(items, channel, now);
      ghost var w' := Now();
      SaveCursors(tracksToProcess.value, channelToProcess.value);
      assert Now() == w';
    }
  }
}
