/**
 * The rediscovery sweep as values: which channel an invocation picks from
 * the channel cursor, which tracks it reads from the track cursor, and how
 * it moves the two cursors afterwards.  The methods of ToSpotify.Mirror are
 * proved to do what these functions say.
 */
module Sweep {
  import opened Wrappers
  import opened Dynamo
  import opened Spotify

  const HOST := "yt"
  const BATCH_GET_SIZE := 500
  const CHANNEL_CURSOR := "exclusive_start_yt_channel_track_key"
  const TRACK_CURSOR := "exclusive_start_yt_track_key"

  /** A row of the channel table: partition host, sort key channel_id. */
  datatype Channel = Channel(id: string, name: string)

  /**
   * A row of the track table: partition yt_channel_id, sort key
   * yt_track_composite, and the attributes the handler reads or sets.
   */
  datatype TrackItem = TrackItem(
    channel: string,
    composite: string,
    name: string,
    spotifyUri: Option<string>,
    spotifyPlaylist: Option<string>,
    foundTime: Option<string>,
    info: Option<SpotifyTrack>)

  /** A cursor row as GetItem returns it when asked for the 'value' attribute only. */
  datatype CursorItem = CursorItem(value: Option<Key>)

  type Cursors = map<string, CursorItem>

  function ChannelId(c: Channel): string { c.id }

  function TrackComposite(t: TrackItem): string { t.composite }

  /** The channel query has no FilterExpression. */
  predicate AnyChannel(c: Channel) { true }

  /** FilterExpression attribute_not_exists(spotify_found_time). */
  predicate Unmatched(t: TrackItem) { t.foundTime.None? }

  /** GetItem on the cursor table: None when there is no row (no 'Item' in the answer). */
  function GetItem(cursors: Cursors, name: string): Option<CursorItem> {
    if name in cursors then Some(cursors[name]) else None
  }

  /** The cursor table with row `name` set to `entry`, or deleted when `entry` is None. */
  function WithCursor(cursors: Cursors, name: string, entry: Option<CursorItem>): Cursors {
    if entry.Some? then cursors[name := entry.value] else cursors - {name}
  }

  /** A cursor row that exists and is not empty: the query resumes after its value. */
  predicate Resumes(entry: Option<CursorItem>) {
    entry.Some? && entry.value.value.Some?
  }

  /** A partition of a table; a partition with no rows is empty. */
  function Partition<T>(m: map<string, seq<T>>, p: string): seq<T> {
    if p in m then m[p] else []
  }

  /** Every track partition is in sort-key order and holds only that channel's tracks. */
  ghost predicate TracksWellFormed(tracks: map<string, seq<TrackItem>>) {
    forall p :: p in tracks ==>
      StrictlySorted(tracks[p], TrackComposite) && forall t :: t in tracks[p] ==> t.channel == p
  }

  /** Some channel lies after `k` in key order. */
  ghost predicate ChannelAfter(channels: seq<Channel>, k: string) {
    exists c :: c in channels && Below(k, c.id)
  }

  /** Query(Limit=1) on the channel table, from the first channel or after `start`. */
  function ChannelPage(channels: seq<Channel>, start: Option<string>): (page: Page<Channel>)
    ensures |page.items| <= 1 && forall c :: c in page.items ==> c in channels
    ensures page.lastKey.Some? ==> page.lastKey.value.partition == HOST
  {
    Query(HOST, channels, ChannelId, start, 1, AnyChannel)
  }

  /** A channel page carries a key exactly when it holds a channel: the first one remaining. */
  lemma ChannelPageFacts(channels: seq<Channel>, start: Option<string>)
    ensures var page := ChannelPage(channels, start);
      var rest := Remaining(channels, ChannelId, start);
      && (page.lastKey.Some? <==> |rest| > 0)
      && (page.lastKey.Some? ==>
            |page.items| == 1 && page.items[0] == rest[0] && page.lastKey.value == Key(HOST, rest[0].id))
  {
    var rest := Remaining(channels, ChannelId, start);
    if |rest| > 0 {
      var read := Evaluated(channels, ChannelId, start, 1);
      assert read == [rest[0]];
      assert rest[0] in Seqs.Filter(read, AnyChannel);
    }
  }

  /** When nothing remains after `k`, no channel lies after `k`. */
  lemma NoChannelAfter(channels: seq<Channel>, k: string)
    requires |AfterKey(channels, ChannelId, k)| == 0
    ensures !ChannelAfter(channels, k)
  {
    forall c | c in channels
      ensures !Below(k, c.id)
    {
      assert c in AfterKey(channels, ChannelId, k) <==> Below(k, c.id);
    }
  }

  /** The first channel after `k` is the least channel above `k`. */
  lemma FirstAfterIsLeast(channels: seq<Channel>, k: string)
    requires StrictlySorted(channels, ChannelId)
    requires |AfterKey(channels, ChannelId, k)| > 0
    ensures var first := AfterKey(channels, ChannelId, k)[0];
      forall c :: c in channels && Below(k, c.id) ==> c == first || Below(first.id, c.id)
  {
    var rest := AfterKey(channels, ChannelId, k);
    AfterKeyIsSuffix(channels, ChannelId, k);
    var i := |channels| - |rest|;
    assert rest[0] == channels[i];
    forall c | c in channels && Below(k, c.id)
      ensures c == rest[0] || Below(rest[0].id, c.id)
    {
      assert c in rest;
      var j :| 0 <= j < |rest| && rest[j] == c;
      assert channels[i + j] == c;
    }
  }

  /**
   * get_current_or_next_channel.  Resume after the channel cursor when its
   * row exists and is not empty, else start from the first channel.  A page
   * without a continuation key deletes the cursor and retries from the first
   * channel; when even that page has none (no channel at all) the retries
   * never end, which Python reports as a RecursionError.  Also yields the
   * cursor row as it is left.  An answered page always holds one channel
   * and carries a continuation key; SelectChannelCases says which channel.
   */
  function SelectChannel(channels: seq<Channel>, entry: Option<CursorItem>): (sel: ChannelSelection)
    requires StrictlySorted(channels, ChannelId)
    ensures sel.outcome.Ok? <==> |channels| > 0 && !(Resumes(entry) && entry.value.value.value.partition != HOST)
    ensures sel.outcome.Ok? ==>
              var page := sel.outcome.value;
              |page.items| == 1 && page.items[0] in channels && page.lastKey == Some(Key(HOST, page.items[0].id))
  {
    ChannelPageFacts(channels, None);
    var first := ChannelPage(channels, None);
    if Resumes(entry) then
      var k := entry.value.value.value;
      if k.partition != HOST then ChannelSelection(Err(StartKeyOutsideQuery), entry)
      else
        var page := ChannelPage(channels, Some(k.sort));
        ChannelPageFacts(channels, Some(k.sort));
        if page.lastKey.Some? then ChannelSelection(Ok(page), entry)
        else
          // the cursor row is deleted and the call retried from the first channel
          if first.lastKey.Some? then ChannelSelection(Ok(first), None)
          else ChannelSelection(Err(RecursionError), None)
    else if first.lastKey.Some? then ChannelSelection(Ok(first), entry)
    else ChannelSelection(Err(RecursionError), None)
  }

  /**
   * Which channel SelectChannel picks and which error it reports: a cursor
   * of another partition is rejected and kept; an empty catalog is a
   * RecursionError with the cursor deleted; a resumable cursor with a
   * channel after it yields the least channel above it and is kept;
   * otherwise the first channel is picked, and a resumed cursor is deleted.
   */
  lemma SelectChannelCases(channels: seq<Channel>, entry: Option<CursorItem>)
    requires StrictlySorted(channels, ChannelId)
    ensures var sel := SelectChannel(channels, entry);
      && (sel.outcome.Err? && Resumes(entry) && entry.value.value.value.partition != HOST ==>
            sel.outcome.error == StartKeyOutsideQuery && sel.cursor == entry)
      && (sel.outcome.Err? && !(Resumes(entry) && entry.value.value.value.partition != HOST) ==>
            sel.outcome.error == RecursionError && sel.cursor == None)
      && (sel.outcome.Ok? && Resumes(entry) && ChannelAfter(channels, entry.value.value.value.sort) ==>
            var k, first := entry.value.value.value.sort, sel.outcome.value.items[0];
            && sel.cursor == entry
            && Below(k, first.id)
            && forall c :: c in channels && Below(k, c.id) ==> c == first || Below(first.id, c.id))
      && (sel.outcome.Ok? && !(Resumes(entry) && ChannelAfter(channels, entry.value.value.value.sort)) ==>
            sel.outcome.value.items[0] == channels[0] && sel.cursor == (if Resumes(entry) then None else entry))
  {
    ChannelPageFacts(channels, None);
    if Resumes(entry) && entry.value.value.value.partition == HOST {
      var k := entry.value.value.value.sort;
      ChannelPageFacts(channels, Some(k));
      if ChannelPage(channels, Some(k)).lastKey.Some? {
        FirstAfterIsLeast(channels, k);
      } else {
        NoChannelAfter(channels, k);
      }
    }
  }

  datatype ChannelSelection = ChannelSelection(outcome: Result<Page<Channel>>, cursor: Option<CursorItem>)

  /**
   * get_next_tracks: up to BATCH_GET_SIZE rows of the channel's partition
   * read after the track cursor (from the first row when there is no cursor
   * row), keeping those with no spotify_found_time.  A cursor row without a
   * value raises KeyError; a cursor of another channel is rejected.
   */
  function NextTracks(tracks: map<string, seq<TrackItem>>, channelId: string, entry: Option<CursorItem>): (r: Result<Page<TrackItem>>)
    ensures r.Err? <==> entry.Some? && (entry.value.value.None? || entry.value.value.value.partition != channelId)
    ensures r.Err? ==> r.error == (if entry.value.value.None? then KeyError else StartKeyOutsideQuery)
    ensures r.Ok? ==> |r.value.items| <= BATCH_GET_SIZE
    ensures r.Ok? ==> forall t :: t in r.value.items ==> t in Partition(tracks, channelId) && Unmatched(t)
    ensures r.Ok? && Resumes(entry) ==>
              forall t :: t in r.value.items ==> Below(entry.value.value.value.sort, t.composite)
    ensures r.Ok? && r.value.lastKey.Some? ==> r.value.lastKey.value.partition == channelId
    ensures r.Ok? && TracksWellFormed(tracks) ==> forall t :: t in r.value.items ==> t.channel == channelId
  {
    var part := Partition(tracks, channelId);
    match entry
    case None => Ok(Query(channelId, part, TrackComposite, None, BATCH_GET_SIZE, Unmatched))
    case Some(item) =>
      if item.value.None? then Err(KeyError)
      else if item.value.value.partition != channelId then Err(StartKeyOutsideQuery)
      else Ok(Query(channelId, part, TrackComposite, Some(item.value.value.sort), BATCH_GET_SIZE, Unmatched))
  }

  /** Where NextTracks starts reading: after the cursor's sort key, or from the first track. */
  function TrackStart(entry: Option<CursorItem>): Option<string> {
    if Resumes(entry) then Some(entry.value.value.value.sort) else None
  }

  /**
   * The tracks NextTracks delivers are the first unmatched tracks of the
   * channel after the track cursor (from its first track when there is no
   * cursor), and the unmatched tracks after the page's key are the rest:
   * resuming from that key neither skips nor repeats a track.  A page
   * without a key delivers every unmatched track that remained.
   */
  lemma NextTracksResumes(tracks: map<string, seq<TrackItem>>, channelId: string, entry: Option<CursorItem>)
    requires TracksWellFormed(tracks)
    requires NextTracks(tracks, channelId, entry).Ok?
    ensures var page := NextTracks(tracks, channelId, entry).value;
      var part := Partition(tracks, channelId);
      Seqs.Filter(Remaining(part, TrackComposite, TrackStart(entry)), Unmatched)
      == page.items
         + (if page.lastKey.Some? then Seqs.Filter(Remaining(part, TrackComposite, Some(page.lastKey.value.sort)), Unmatched) else [])
    ensures entry.None? ==> Remaining(Partition(tracks, channelId), TrackComposite, TrackStart(entry)) == Partition(tracks, channelId)
  {
    var part := Partition(tracks, channelId);
    assert StrictlySorted(part, TrackComposite);
    QueryResumes(channelId, part, TrackComposite, TrackStart(entry), BATCH_GET_SIZE, Unmatched);
  }

  /** No track of a page lies after its LastEvaluatedKey. */
  lemma NextTracksUpToLastKey(tracks: map<string, seq<TrackItem>>, channelId: string, entry: Option<CursorItem>)
    requires TracksWellFormed(tracks)
    requires NextTracks(tracks, channelId, entry).Ok? && NextTracks(tracks, channelId, entry).value.lastKey.Some?
    ensures var page := NextTracks(tracks, channelId, entry).value;
      forall t :: t in page.items ==> !Below(page.lastKey.value.sort, t.composite)
  {
    var part := Partition(tracks, channelId);
    assert StrictlySorted(part, TrackComposite);
    QueryItemsUpToLastKey(channelId, part, TrackComposite, TrackStart(entry), BATCH_GET_SIZE, Unmatched);
  }

  /**
   * save_cursors: a track page with a continuation key stores it as the
   * track cursor; otherwise the track cursor is deleted and the channel
   * cursor moves to the channel page's key, when it has one.
   */
  function SavedCursors(cursors: Cursors, tracksKey: Option<Key>, channelKey: Option<Key>): (r: Cursors)
    ensures tracksKey.Some? ==>
              GetItem(r, TRACK_CURSOR) == Some(CursorItem(tracksKey))
              && GetItem(r, CHANNEL_CURSOR) == GetItem(cursors, CHANNEL_CURSOR)
    ensures tracksKey.None? ==> TRACK_CURSOR !in r
    ensures tracksKey.None? && channelKey.Some? ==> GetItem(r, CHANNEL_CURSOR) == Some(CursorItem(channelKey))
    ensures channelKey.None? ==> GetItem(r, CHANNEL_CURSOR) == GetItem(cursors, CHANNEL_CURSOR)
    ensures TRACK_CURSOR in r ==> GetItem(r, CHANNEL_CURSOR) == GetItem(cursors, CHANNEL_CURSOR)
    ensures forall n :: n != TRACK_CURSOR && n != CHANNEL_CURSOR ==> GetItem(r, n) == GetItem(cursors, n)
  {
    if tracksKey.Some? then cursors[TRACK_CURSOR := CursorItem(tracksKey)]
    else
      var cleared := cursors - {TRACK_CURSOR};
      if channelKey.Some? then cleared[CHANNEL_CURSOR := CursorItem(channelKey)] else cleared
  }

  /**
   * The cursor table after a batch invocation whose lookups all returned:
   * select the channel, read its tracks, save the cursors.  An invocation
   * that fails before save_cursors leaves the table as channel selection
   * left it.
   */
  function BatchCursors(channels: seq<Channel>, tracks: map<string, seq<TrackItem>>, cursors: Cursors): (r: Cursors)
    requires StrictlySorted(channels, ChannelId)
    ensures forall n :: n != TRACK_CURSOR && n != CHANNEL_CURSOR ==> GetItem(r, n) == GetItem(cursors, n)
    ensures SelectChannel(channels, GetItem(cursors, CHANNEL_CURSOR)).outcome.Err? ==>
              GetItem(r, TRACK_CURSOR) == GetItem(cursors, TRACK_CURSOR)
  {
    var sel := SelectChannel(channels, GetItem(cursors, CHANNEL_CURSOR));
    var selected := WithCursor(cursors, CHANNEL_CURSOR, sel.cursor);
    if sel.outcome.Err? then selected
    else
      var page := NextTracks(tracks, sel.outcome.value.items[0].id, GetItem(selected, TRACK_CURSOR));
      if page.Err? then selected
      else SavedCursors(selected, page.value.lastKey, sel.outcome.value.lastKey)
  }

  /** The tracks a batch invocation looks up, in order: the page read for the selected channel. */
  function BatchTracks(channels: seq<Channel>, tracks: map<string, seq<TrackItem>>, cursors: Cursors): (r: seq<TrackItem>)
    requires StrictlySorted(channels, ChannelId)
    ensures |r| <= BATCH_GET_SIZE
    ensures r != [] ==>
              var sel := SelectChannel(channels, GetItem(cursors, CHANNEL_CURSOR));
              sel.outcome.Ok? && forall t :: t in r ==> t in Partition(tracks, sel.outcome.value.items[0].id) && Unmatched(t)
  {
    var sel := SelectChannel(channels, GetItem(cursors, CHANNEL_CURSOR));
    var selected := WithCursor(cursors, CHANNEL_CURSOR, sel.cursor);
    if sel.outcome.Err? then []
    else
      var page := NextTracks(tracks, sel.outcome.value.items[0].id, GetItem(selected, TRACK_CURSOR));
      if page.Err? then [] else page.value.items
  }

  /**
   * The cursors agree with the channel table: channel selection succeeds,
   * and a track cursor, when present, holds a key of the channel that the
   * next invocation selects.
   */
  ghost predicate Coherent(channels: seq<Channel>, cursors: Cursors)
    requires StrictlySorted(channels, ChannelId)
  {
    var sel := SelectChannel(channels, GetItem(cursors, CHANNEL_CURSOR));
    && sel.outcome.Ok?
    && (TRACK_CURSOR in cursors ==>
          cursors[TRACK_CURSOR].value.Some?
          && cursors[TRACK_CURSOR].value.value.partition == sel.outcome.value.items[0].id)
  }

  /** Selecting again from the cursor row a selection left picks the same channel page. */
  lemma {:induction false} SelectionIsStable(channels: seq<Channel>, entry: Option<CursorItem>)
    requires StrictlySorted(channels, ChannelId)
    requires SelectChannel(channels, entry).outcome.Ok?
    ensures var sel := SelectChannel(channels, entry);
      SelectChannel(channels, sel.cursor) == sel
  {
    var sel := SelectChannel(channels, entry);
    SelectChannelCases(channels, entry);
    if Resumes(entry) && ChannelAfter(channels, entry.value.value.value.sort) {
      assert sel.cursor == entry;
    } else {
      var again := SelectChannel(channels, sel.cursor);
      SelectChannelCases(channels, sel.cursor);
      assert !Resumes(sel.cursor);
      assert again.outcome.value.items == [channels[0]];
      assert again.outcome == sel.outcome;
    }
  }

  /**
   * A channel cursor at the channel with index i makes the next invocation
   * pick the channel at index i + 1, and after the last channel the first
   * one again, with the channel cursor deleted (wraparound).
   */
  lemma {:induction false} ExhaustedChannelAdvances(channels: seq<Channel>, i: nat)
    requires StrictlySorted(channels, ChannelId) && i < |channels|
    ensures var sel := SelectChannel(channels, Some(CursorItem(Some(Key(HOST, channels[i].id)))));
      && sel.outcome.Ok?
      && sel.outcome.value.items[0] == (if i + 1 < |channels| then channels[i + 1] else channels[0])
      && (sel.cursor == None <==> i + 1 == |channels|)
  {
    var k := channels[i].id;
    var entry := Some(CursorItem(Some(Key(HOST, k))));
    var sel := SelectChannel(channels, entry);
    AfterKeyAt(channels, ChannelId, i);
    ChannelPageFacts(channels, Some(k));
    var page := ChannelPage(channels, Some(k));
    if i + 1 < |channels| {
      assert page.lastKey.Some?;
      assert sel == ChannelSelection(Ok(page), entry);
      assert page.items[0] == channels[i + 1];
    } else {
      ChannelPageFacts(channels, None);
      assert page.lastKey.None?;
      assert sel == ChannelSelection(Ok(ChannelPage(channels, None)), None);
    }
  }

  /**
   * A batch invocation from coherent cursors reads its tracks without error
   * and leaves coherent cursors: a kept track cursor belongs to the channel
   * the next invocation selects.
   */
  lemma BatchKeepsCoherent(channels: seq<Channel>, tracks: map<string, seq<TrackItem>>, cursors: Cursors)
    requires StrictlySorted(channels, ChannelId)
    requires Coherent(channels, cursors)
    ensures var sel := SelectChannel(channels, GetItem(cursors, CHANNEL_CURSOR));
      var selected := WithCursor(cursors, CHANNEL_CURSOR, sel.cursor);
      && sel.outcome.Ok?
      && NextTracks(tracks, sel.outcome.value.items[0].id, GetItem(selected, TRACK_CURSOR)).Ok?
    ensures Coherent(channels, BatchCursors(channels, tracks, cursors))
  {
    var sel := SelectChannel(channels, GetItem(cursors, CHANNEL_CURSOR));
    var selected := WithCursor(cursors, CHANNEL_CURSOR, sel.cursor);
    var channel := sel.outcome.value.items[0];
    assert GetItem(selected, TRACK_CURSOR) == GetItem(cursors, TRACK_CURSOR);
    var page := NextTracks(tracks, channel.id, GetItem(selected, TRACK_CURSOR));
    var after := SavedCursors(selected, page.value.lastKey, sel.outcome.value.lastKey);
    assert after == BatchCursors(channels, tracks, cursors);
    if page.value.lastKey.Some? {
      SelectionIsStable(channels, GetItem(cursors, CHANNEL_CURSOR));
      assert GetItem(after, CHANNEL_CURSOR) == sel.cursor;
    } else {
      assert GetItem(after, CHANNEL_CURSOR) == Some(CursorItem(Some(Key(HOST, channel.id))));
    }
  }

  /**
   * When a batch invocation's track page carried a key, the next invocation
   * selects the same channel and resumes after that key; otherwise the
   * track cursor is gone and the next invocation starts the channel it then
   * selects from its first track.
   */
  lemma BatchContinues(channels: seq<Channel>, tracks: map<string, seq<TrackItem>>, cursors: Cursors)
    requires StrictlySorted(channels, ChannelId)
    requires Coherent(channels, cursors)
    ensures var sel := SelectChannel(channels, GetItem(cursors, CHANNEL_CURSOR));
      var selected := WithCursor(cursors, CHANNEL_CURSOR, sel.cursor);
      var page := NextTracks(tracks, sel.outcome.value.items[0].id, GetItem(selected, TRACK_CURSOR));
      var after := BatchCursors(channels, tracks, cursors);
      && (page.value.lastKey.Some? ==>
            && SelectChannel(channels, GetItem(after, CHANNEL_CURSOR)).outcome == sel.outcome
            && GetItem(after, TRACK_CURSOR) == Some(CursorItem(page.value.lastKey))
            && TrackStart(GetItem(after, TRACK_CURSOR)) == Some(page.value.lastKey.value.sort))
      && (page.value.lastKey.None? ==> TrackStart(GetItem(after, TRACK_CURSOR)) == None)
  {
    BatchKeepsCoherent(channels, tracks, cursors);
    var sel := SelectChannel(channels, GetItem(cursors, CHANNEL_CURSOR));
    var selected := WithCursor(cursors, CHANNEL_CURSOR, sel.cursor);
    var page := NextTracks(tracks, sel.outcome.value.items[0].id, GetItem(selected, TRACK_CURSOR));
    var after := BatchCursors(channels, tracks, cursors);
    assert after == SavedCursors(selected, page.value.lastKey, sel.outcome.value.lastKey);
    if page.value.lastKey.Some? {
      SelectionIsStable(channels, GetItem(cursors, CHANNEL_CURSOR));
      assert GetItem(after, CHANNEL_CURSOR) == sel.cursor;
    }
  }

  /**
   * A track cursor of another channel than the one selected stalls the
   * sweep: the track query is rejected before save_cursors runs, nothing is
   * looked up, and the next invocation selects the same channel from the
   * same cursors and fails the same way, so every later one does too.
   */
  lemma ForeignTrackCursorStalls(channels: seq<Channel>, tracks: map<string, seq<TrackItem>>, cursors: Cursors)
    requires StrictlySorted(channels, ChannelId)
    requires SelectChannel(channels, GetItem(cursors, CHANNEL_CURSOR)).outcome.Ok?
    requires TRACK_CURSOR in cursors && cursors[TRACK_CURSOR].value.Some?
    requires cursors[TRACK_CURSOR].value.value.partition
             != SelectChannel(channels, GetItem(cursors, CHANNEL_CURSOR)).outcome.value.items[0].id
    ensures var sel := SelectChannel(channels, GetItem(cursors, CHANNEL_CURSOR));
      var selected := WithCursor(cursors, CHANNEL_CURSOR, sel.cursor);
      && NextTracks(tracks, sel.outcome.value.items[0].id, GetItem(selected, TRACK_CURSOR)) == Err(StartKeyOutsideQuery)
      && BatchTracks(channels, tracks, cursors) == []
      && BatchCursors(channels, tracks, cursors) == selected
      && BatchTracks(channels, tracks, selected) == []
      && BatchCursors(channels, tracks, selected) == selected
  {
    var sel := SelectChannel(channels, GetItem(cursors, CHANNEL_CURSOR));
    var selected := WithCursor(cursors, CHANNEL_CURSOR, sel.cursor);
    SelectionIsStable(channels, GetItem(cursors, CHANNEL_CURSOR));
    assert GetItem(selected, CHANNEL_CURSOR) == sel.cursor;
    assert GetItem(selected, TRACK_CURSOR) == GetItem(cursors, TRACK_CURSOR);
    assert WithCursor(selected, CHANNEL_CURSOR, sel.cursor) == selected;
  }

  /** A resumable channel cursor selects the least channel above it, and is kept. */
  lemma SelectsLeastAbove(channels: seq<Channel>, entry: Option<CursorItem>, x: Channel)
    requires StrictlySorted(channels, ChannelId)
    requires Resumes(entry) && entry.value.value.value.partition == HOST
    requires x in channels && Below(entry.value.value.value.sort, x.id)
    requires forall c :: c in channels && Below(entry.value.value.value.sort, c.id) ==> c == x || Below(x.id, c.id)
    ensures SelectChannel(channels, entry).outcome.Ok?
    ensures SelectChannel(channels, entry).outcome.value.items[0] == x
    ensures SelectChannel(channels, entry).cursor == entry
  {
    var sel := SelectChannel(channels, entry);
    SelectChannelCases(channels, entry);
    var first := sel.outcome.value.items[0];
    if first != x {
      BelowAsymmetric(x.id, first.id);
    }
  }

  /**
   * The channel table is read, never written, by this handler, and the
   * cursors are coherent only for the table they were saved against.  Here
   * the sweep stands in channel c of the table [a, c]: the channel cursor
   * is at a, the track cursor holds key t of c.  Once a channel b between
   * a and c is inserted, selection picks b, the track cursor of c lies
   * outside b's partition, nothing is looked up and the cursors stay as
   * they are, so the sweep stalls as ForeignTrackCursorStalls says.
   */
  lemma InsertedChannelStallsSweep(a: Channel, b: Channel, c: Channel, t: string,
                                   tracks: map<string, seq<TrackItem>>, cursors: Cursors)
    requires Below(a.id, b.id) && Below(b.id, c.id)
    requires GetItem(cursors, CHANNEL_CURSOR) == Some(CursorItem(Some(Key(HOST, a.id))))
    requires GetItem(cursors, TRACK_CURSOR) == Some(CursorItem(Some(Key(c.id, t))))
    ensures StrictlySorted([a, c], ChannelId) && StrictlySorted([a, b, c], ChannelId)
    ensures Coherent([a, c], cursors)
    ensures !Coherent([a, b, c], cursors)
    ensures BatchTracks([a, b, c], tracks, cursors) == []
    ensures BatchCursors([a, b, c], tracks, cursors) == cursors
  {
    BelowTransitive(a.id, b.id, c.id);
    BelowIrreflexive(a.id);
    BelowIrreflexive(b.id);
    CoherentBeforeInsertion(a, c, t, cursors);
    StalledAfterInsertion(a, b, c, t, tracks, cursors);
  }

  /** The cursors of InsertedChannelStallsSweep are coherent for the table [a, c]. */
  lemma CoherentBeforeInsertion(a: Channel, c: Channel, t: string, cursors: Cursors)
    requires Below(a.id, c.id) && !Below(a.id, a.id)
    requires GetItem(cursors, CHANNEL_CURSOR) == Some(CursorItem(Some(Key(HOST, a.id))))
    requires GetItem(cursors, TRACK_CURSOR) == Some(CursorItem(Some(Key(c.id, t))))
    ensures StrictlySorted([a, c], ChannelId) && Coherent([a, c], cursors)
  {
    assert StrictlySorted([a, c], ChannelId);
    SelectsLeastAbove([a, c], GetItem(cursors, CHANNEL_CURSOR), c);
  }

  /** With b inserted between a and c, the same cursors stall the sweep. */
  lemma StalledAfterInsertion(a: Channel, b: Channel, c: Channel, t: string,
                              tracks: map<string, seq<TrackItem>>, cursors: Cursors)
    requires Below(a.id, b.id) && Below(b.id, c.id) && Below(a.id, c.id) && !Below(a.id, a.id) && !Below(b.id, b.id)
    requires GetItem(cursors, CHANNEL_CURSOR) == Some(CursorItem(Some(Key(HOST, a.id))))
    requires GetItem(cursors, TRACK_CURSOR) == Some(CursorItem(Some(Key(c.id, t))))
    ensures StrictlySorted([a, b, c], ChannelId)
    ensures !Coherent([a, b, c], cursors)
    ensures BatchTracks([a, b, c], tracks, cursors) == []
    ensures BatchCursors([a, b, c], tracks, cursors) == cursors
  {
    var after := [a, b, c];
    var entry := GetItem(cursors, CHANNEL_CURSOR);
    assert StrictlySorted(after, ChannelId);
    SelectsLeastAbove(after, entry, b);
    ForeignTrackCursorStalls(after, tracks, cursors);
    assert WithCursor(cursors, CHANNEL_CURSOR, entry) == cursors;
  }
}
