# to-spotify, modelled in Dafny

The to-spotify Lambda of mirror.fm matches YouTube track names against
Spotify and prepends each match to a per-channel Spotify playlist. It runs in
one of two modes:

- **Reactive:** it gets a DynamoDB stream batch, and looks up every new track
  row that has no `spotify_uri` yet.
- **Batch:** it resumes a sweep over all channels. A channel cursor and a
  track cursor in the `mirrorfm_cursors` table record where the sweep stands.
  Each invocation picks one channel and reads up to 500 of its unmatched
  tracks. It looks each one up, then moves the cursors.

A duplicate index of (channel, uri) → playlist keeps a track from being added
to a channel's playlist twice. A channel's playlist is reused by its highest
`num`, or created with `num = 1`.

## How the model is built

- **The five tables** are fields of one object, `ToSpotify.Mirror`:
  - `cursors`: a map from cursor name to row;
  - `channels`: a sorted sequence;
  - `tracks` and `playlists`: maps from partition to a sorted sequence of
    rows;
  - `duplicates`: a map from (channel, uri) to playlist.
- **Every handler function** is a method of that object. Its contract ties
  the new tables, the Spotify call log and the number of playlists created
  to a pure function of the old ones:
  - `Place`: the steps after a hit that is not a duplicate;
  - `Lookup`: one `spotify_lookup`;
  - `LookupAll`: a sequence of lookups that stops at the first exception.

  The properties of the handler are lemmas about these functions.
- **Two invariants** hold for the object:
  - `Consistent`: the tables are well formed, and a ghost history of
    placements is recorded exactly in the duplicate index, with no (channel,
    uri) pair placed twice. Every method that requires `Valid()` keeps it:
    `PlaceMatch`, `SpotifyLookup`, `LookUpRecord`, `HandleRecords`,
    `LookUpBatch`, `Rediscover` and `Handle`.
  - `Logged`: the add-tracks calls in the Spotify log are exactly the
    placements, in order. It holds from construction, and `Handle` keeps it.
- **DynamoDB** lives in module `Dynamo`:
  - A Query reads up to `Limit` items after the ExclusiveStartKey. `Limit`
    counts items *before* the FilterExpression is applied.
  - A Query keeps those that pass the filter. It reports a LastEvaluatedKey
    exactly when `Limit` items were read.
  - An ExclusiveStartKey from another partition is rejected.
  - `Upsert` models `update_item` on the track table. The `put_item` writes
    are `PutPlaylist` for the playlist table and map updates for the cursor
    and duplicate tables.
- **The Spotify client** (`Spotify.Client`) is a fake that appends every
  search, `user_playlist_create` and `user_playlist_add_tracks` to a call
  log. Its search ranking and the ids it assigns to new playlists are fixed
  when it is built.
- **The cursor state machine** is stated as pure functions in module `Sweep`:
  - `SelectChannel`
  - `NextTracks`
  - `SavedCursors`
  - `BatchCursors` and `BatchTracks`

  The lemmas prove these properties of it:
  - it wraps around after the last channel;
  - selecting again from the cursor it left picks the same channel;
  - for an unchanged channel table, a kept track cursor belongs to the
    channel the next invocation picks (`Coherent`);
  - the next invocation resumes with exactly the unmatched rows this one
    did not read. This holds in the track table as this invocation's
    lookups left it: a lookup rewrites only the row of its own track, and
    every row after the page's last key is unchanged.

### Error paths

- **Channel table empty.** `get_current_or_next_channel` recurses until
  Python gives up. This is modelled as `Err(RecursionError)` once the
  from-first page has no continuation key. A second call would repeat that
  query and deletion exactly.
- **Track cursor row without a `value`.** `get_next_tracks` raises
  `KeyError`: its log line reads `['Item']['value']`.
  - The channel cursor is read with `AttributesToGet=['value']`. For a row
    without a value, `Item` is `{}`, so that row counts as "no cursor".
- **Channel id missing from the channel table.**
  `create_playlist_for_channel` raises `IndexError` before it creates
  anything.
- **ExclusiveStartKey outside the queried partition.** Modelled as
  `StartKeyOutsideQuery`. DynamoDB answers this with a ValidationException.

### Facts about the code

- **Playlists never roll over.** `PLAYLIST_EXPECTED_MAX_LENGTH`
  (main.py:66) is never read. A playlist is created only when the channel
  has none, and always with `num = 1` (main.py:185). So this code never
  writes a second playlist row for a channel.
- **An inserted channel stalls the sweep.** The handler reads the channel
  table and never writes it. Say the channel cursor is at a and the track
  cursor holds a key of channel c. If a channel b between a and c is then
  inserted, selection picks b (main.py:272-275). The track query starts from
  c's key, which is not in b's partition, so it fails (main.py:310-318).
  `save_cursors` (main.py:353) is never reached, and every later invocation
  fails the same way (`InsertedChannelStallsSweep`,
  `ForeignTrackCursorStalls`).
- **Pages per channel.** `Limit` (main.py:311, main.py:318) counts every row read,
  matched or not. A page that ends exactly at the last row still carries a
  LastEvaluatedKey. So a channel with M rows after the track cursor takes
  ⌊M/B⌋ + 1 pages of B = 500 rows until a page comes back without a key
  (`PagesUntilExhausted`). This holds however many of the M rows are
  already matched.

## Model

| member | source | states |
|---|---|---|
| Memo.Memoize.constructor | functions/to-spotify/main.py:55-57 | the cache starts empty, and f has not run yet |
| Memo.Memoize.Call | functions/to-spotify/main.py:59-63 | the answer is always f(args). A miss caches f(args) and is the only time f runs. Every cached value is f of its key, and f ran once per cached key |
| SearchText.BuildQuery | functions/to-spotify/main.py:159-164 | a name that splits into two or more parts gives `track:"` + part 1 + `"+artist:"` + part 0 + `"`, of exactly that length. Any other name is the query itself |
| SearchText.BuildQueryMeaning | functions/to-spotify/main.py:159-164 | parsing a fielded query back yields exactly (part 0 as artist, part 1 as title), provided the title holds no double quote. Any other name is sent unchanged |
| Spotify.Client.Search | functions/to-spotify/main.py:166-168 | logs the search, and answers at most `limit` hits: the best-ranked ones, in order |
| Spotify.Client.UserPlaylistCreate | functions/to-spotify/main.py:192 | logs one creation, and answers the next id the service assigns |
| Spotify.Client.UserPlaylistAddTracks | functions/to-spotify/main.py:230-233 | logs exactly one add-tracks call with the given playlist, uris and position |
| Dynamo.Query | functions/to-spotify/main.py:310-320 | (1) At most `limit` items, all from the partition, passing the filter and after the start key. (2) A LastEvaluatedKey exactly when `limit` items remained, in the queried partition. (3) Without one, the items are all filtered items after the start key |
| Dynamo.QueryResumes | functions/to-spotify/main.py:310-314 | the filtered items after the start key are exactly this page's items followed by the filtered items after its LastEvaluatedKey. Paging neither skips nor repeats a row |
| Dynamo.PagedItems | functions/to-spotify/main.py:306-320 | following LastEvaluatedKey page by page, until a page has none, collects exactly the filtered items after the start key, in key order |
| Dynamo.ResumeAfterLastKey | functions/to-spotify/main.py:310-314 | resuming after a page's LastEvaluatedKey leaves exactly the items that page did not read |
| Dynamo.QueryItemsUpToLastKey | functions/to-spotify/main.py:310-320 | no item of a page with a LastEvaluatedKey lies after that key |
| Dynamo.SortedSameItems | functions/to-spotify/main.py:310-320 | two key-sorted sequences with the same items are equal, so a partition is determined by its rows |
| Dynamo.AfterKeyAt | functions/to-spotify/main.py:272-275 | starting after the key of the item at index m resumes at index m + 1 |
| Dynamo.PagesUntilExhausted | functions/to-spotify/main.py:306-320 | the number of successive Query pages until one carries no LastEvaluatedKey is ⌊remaining / limit⌋ + 1 |
| Dynamo.Upsert | functions/to-spotify/main.py:249-266 | the partition stays sorted and holds the written item. The row with the same key is replaced, every other row is kept, and nothing else is added. When the key existed, length and key order are unchanged |
| Playlists.LastPlaylist | functions/to-spotify/main.py:173-181 | none exactly when the channel has no playlist row. Otherwise a row of the channel with the highest num |
| Playlists.PutPlaylist | functions/to-spotify/main.py:194-200 | rows stay in num order, and the new row is present. The row with the same num is replaced and all others are kept |
| Sweep.ChannelPage | functions/to-spotify/main.py:272-280 | a limit-1 channel query holds at most one channel, of the catalog, and its key is in the `yt` partition |
| Sweep.ChannelPageFacts | functions/to-spotify/main.py:272-282 | a limit-1 channel page carries a continuation key exactly when a channel remains. It then holds that one channel, and the key is that channel's |
| Sweep.SelectChannel | functions/to-spotify/main.py:269-290 | selection succeeds exactly when the catalog is non-empty and the cursor is not from another partition. A selected page holds one channel of the catalog and always carries that channel's key |
| Sweep.SelectChannelCases | functions/to-spotify/main.py:269-290 | (1) A foreign cursor is an error and is kept. (2) An empty catalog is a RecursionError with the cursor deleted. (3) A resumable cursor with a channel after it selects the least channel above it and keeps the cursor. (4) Otherwise the first channel is selected, and a cursor that was resumed from is deleted |
| Sweep.FirstAfterIsLeast | functions/to-spotify/main.py:272-275 | the first channel after the cursor is the least channel above the cursor key |
| Sweep.SelectionIsStable | functions/to-spotify/main.py:269-290 | selecting again from the cursor row a selection left picks the same channel page |
| Sweep.ExhaustedChannelAdvances | functions/to-spotify/main.py:282-289 | a channel cursor at channel i selects channel i + 1. After the last channel it selects the first one again and deletes the cursor (wraparound) |
| Sweep.NextTracks | functions/to-spotify/main.py:306-320 | at most 500 tracks, all of the given channel's partition, all without spotify_found_time, all after the track cursor when there is one. A cursor row without a value is a KeyError. A cursor of another channel is rejected, and these are the only errors |
| Sweep.NextTracksResumes | functions/to-spotify/main.py:306-320 | the unmatched rows after the track cursor are exactly this page's items followed by the unmatched rows after its LastEvaluatedKey. Without a cursor, the whole partition is read from its start |
| Sweep.SavedCursors | functions/to-spotify/main.py:293-303 | (1) A track key becomes the track cursor and leaves the channel cursor alone. (2) Without one, the track cursor is deleted, and the channel cursor moves to the channel key if there is one. (3) A kept track cursor never comes with a moved channel cursor. (4) Other rows are untouched |
| Sweep.BatchCursors | functions/to-spotify/main.py:340-353 | the cursors one batch invocation leaves. Rows other than the two cursors are untouched, and a failed channel selection leaves the track cursor as it was |
| Sweep.BatchTracks | functions/to-spotify/main.py:342-351 | the tracks one batch invocation looks up: at most 500, all unmatched rows of the selected channel, and none at all when selection fails |
| Sweep.BatchKeepsCoherent | functions/to-spotify/main.py:340-353 | for one and the same channel table: from coherent cursors, selection and the track read succeed, and the cursors left behind are coherent again. A kept track cursor belongs to the channel the next invocation selects |
| Sweep.NextTracksUpToLastKey | functions/to-spotify/main.py:306-320 | no track of a page with a LastEvaluatedKey lies after that key, so the rows after it are ones this invocation did not read |
| Sweep.SelectsLeastAbove | functions/to-spotify/main.py:272-275 | a resumable channel cursor with channel x as the least channel above it selects x and keeps the cursor |
| Sweep.ForeignTrackCursorStalls | functions/to-spotify/main.py:340-353 | a track cursor of another channel than the selected one makes the track query fail. Nothing is looked up, and the cursors stay the same, so the next invocation selects the same channel and fails again |
| Sweep.InsertedChannelStallsSweep | functions/to-spotify/main.py:269-320 | cursors coherent for channels [a, c] stop being coherent once a channel b between a and c is inserted. The sweep over [a, b, c] then looks up nothing and leaves the cursors as they were |
| Sweep.BatchContinues | functions/to-spotify/main.py:293-320 | after a page with a LastEvaluatedKey, the next invocation selects the same channel and resumes after that key. After a page without one, it starts the next channel from its first track |
| ToSpotify.QualifyingImages | functions/to-spotify/main.py:336-339 | no more images than records |
| ToSpotify.QualifyingImagesMeaning | functions/to-spotify/main.py:336-339 | every record with a NewImage lacking spotify_uri contributes its image. Every image comes from such a record and has no uri. There are none exactly when no record qualifies |
| ToSpotify.QualifyingPrefix | functions/to-spotify/main.py:336-339 | the images of the first k records are a prefix of the images of all records |
| ToSpotify.PrependCallsAt | functions/to-spotify/main.py:230-233 | the placements issue one add-tracks call each, in order, of one uri at position 0 |
| ToSpotify.PlacementKeepsIndexed | functions/to-spotify/main.py:243-248 | placing a pair the duplicate index lacks, and then indexing it, keeps every pair placed at most once and indexed with its playlist |
| ToSpotify.PlacementKeepsIndex | functions/to-spotify/main.py:234-266 | after a placement of a pair the index lacks, the index stays exact and the track table stays well formed |
| ToSpotify.PlacementKeepsLog | functions/to-spotify/main.py:228-235 | a placement after creation calls adds exactly one prepend to the log, in placement order, and no search |
| ToSpotify.FindChannel | functions/to-spotify/main.py:186-191 | finds a row with that channel id exactly when the channel table holds one |
| ToSpotify.PlaylistChoice | functions/to-spotify/main.py:204-206 | the channel's highest-num playlist if it has one. Otherwise a new playlist with num 1, if the channel row exists. Otherwise none |
| ToSpotify.CreationCalls | functions/to-spotify/main.py:184-206 | at most one creation, and never a search or prepend. One exactly when the channel has no playlist but has a channel row |
| ToSpotify.PlaylistsAfter | functions/to-spotify/main.py:184-206 | the playlist table stays well formed. Only the asked channel can change, and only from no rows to the one row of playlist 1. The chosen playlist is afterwards the channel's highest-num row, and with no choice the table is unchanged |
| ToSpotify.AskingAgainCreatesNothing | functions/to-spotify/main.py:204-206 | once a playlist was chosen, choosing again picks the same one, with no creation and no further change to the table |
| ToSpotify.IndexPlacements | functions/to-spotify/main.py:218-225 | indexing placements keeps every pair already indexed and adds each placed pair |
| ToSpotify.Matched | functions/to-spotify/main.py:254-265 | the written row keeps the channel, composite key and name, and is no longer unmatched. It records the uri, playlist and time of the placement |
| ToSpotify.UpdateTrack | functions/to-spotify/main.py:249-266 | the track table stays well formed |
| ToSpotify.UpdateTrackFacts | functions/to-spotify/main.py:249-266 | the written row is in its partition and replaces the row with its key. All other rows of all partitions are kept |
| ToSpotify.Mirror.BestMatch | functions/to-spotify/main.py:166-168 | none exactly when the search has no hit. Otherwise the first hit |
| ToSpotify.Mirror.PlacedOnlyPlacement | functions/to-spotify/main.py:248-266 | one placement of a track's best hit changes the tables only by that placement, its index entry and the kept playlists. The only track row that goes is the one under the placed track's (channel, composite) key, and the only row that comes is its matched rewrite |
| ToSpotify.Mirror.PlacedOnlyTrans | functions/to-spotify/main.py:350-351 | two such stretches of lookups in a row change the tables only by placements of hits of the tracks of both. Each row that goes or comes is under the key of one of those placements |
| ToSpotify.Mirror.NoHitNoChange | functions/to-spotify/main.py:239-241 | when no looked-up track has a hit, the tables are exactly as before |
| ToSpotify.Mirror.Place | functions/to-spotify/main.py:245-266 | the state after a hit that is not a duplicate: the table and log effects, including creations and the created count, or an IndexError with nothing changed |
| ToSpotify.Mirror.Lookup | functions/to-spotify/main.py:238-266 | the state after one `spotify_lookup`: the tables stay well formed |
| ToSpotify.Mirror.LookupAll | functions/to-spotify/main.py:336-339 | the state after lookups in order that stop at the first exception: the tables stay well formed |
| ToSpotify.Mirror.PlaceKeepsConsistent | functions/to-spotify/main.py:243-248 | placing a pair the index lacks keeps the tables well formed and the index exact |
| ToSpotify.Mirror.LookupKeepsConsistent | functions/to-spotify/main.py:238-266 | a lookup keeps the tables well formed and the index exact |
| ToSpotify.Mirror.LookupAllKeepsConsistent | functions/to-spotify/main.py:336-339 | any sequence of lookups keeps the tables well formed and the index exact |
| ToSpotify.Mirror.PlaceKeepsLogged | functions/to-spotify/main.py:228-235 | a placement keeps the prepends in the log exactly the placements, in order |
| ToSpotify.Mirror.LookupKeepsLogged | functions/to-spotify/main.py:238-266 | a lookup keeps the prepends in the log exactly the placements, in order |
| ToSpotify.Mirror.LookupAllKeepsLogged | functions/to-spotify/main.py:336-339 | any sequence of lookups keeps the prepends in the log exactly the placements, in order |
| ToSpotify.Mirror.LookupCases | functions/to-spotify/main.py:238-266 | (1) Exactly one search is logged. (2) No hit, or a duplicate hit: no table, creation or prepend changes. (3) A new hit with no playlist and no channel row: IndexError, nothing else changes. (4) Otherwise: at most one creation, then one prepend at position 0 to the playlist that is afterwards the channel's highest-num one. The pair is indexed with it, and the matched row is in the channel's partition |
| ToSpotify.Mirror.LookupTwice | functions/to-spotify/main.py:243-248 | looking the same track up again changes no table |
| ToSpotify.Mirror.LookupPlacedOnly | functions/to-spotify/main.py:238-266 | a lookup changes the tables only by a placement of its track's hit. Only that track's row can be rewritten, and every other row is kept |
| ToSpotify.Mirror.LookupAllPlacedOnly | functions/to-spotify/main.py:336-339 | a sequence of lookups changes the tables only by placements of the looked-up tracks' hits, each with its index entry and kept playlists. Only rows under a looked-up track's key are rewritten, and every other row is kept |
| ToSpotify.Mirror.RowsAfterKept | functions/to-spotify/main.py:249-266 | when no looked-up track of a channel lies after key k, lookups leave that channel's rows after k exactly as they were |
| ToSpotify.Mirror.NextBatchReadsTheRest | functions/to-spotify/main.py:340-353 | from coherent cursors, after a page with a LastEvaluatedKey, the unmatched rows after the track cursor are this page's tracks followed by the unmatched rows the next invocation reads from the saved cursor, in the table as the lookups left it |
| ToSpotify.Mirror.LookupAllSearches | functions/to-spotify/main.py:336-339 | lookups that all pass log exactly their searches, in order |
| ToSpotify.Mirror.LookupPasses | functions/to-spotify/main.py:186-191 | a track of a channel that has a channel row never fails its lookup |
| ToSpotify.Mirror.LookupAllPasses | functions/to-spotify/main.py:347-351 | tracks all of one catalog channel are looked up without failure |
| ToSpotify.Mirror.LookupAllFailed | functions/to-spotify/main.py:336-339 | once a lookup fails, the later tracks are not looked up: the state is the one at the failure |
| ToSpotify.Mirror.ImagesFailed | functions/to-spotify/main.py:336-339 | a failure at a record of the stream ends the whole reactive run in the state of that failure |
| ToSpotify.Mirror.GetCursor | functions/to-spotify/main.py:89-97 | answers the row exactly when the cursor table has one under that name |
| ToSpotify.Mirror.SetCursor | functions/to-spotify/main.py:100-106 | the row `name` now holds the position; nothing else changes |
| ToSpotify.Mirror.DeleteCursor | functions/to-spotify/main.py:284-288 | the row `name` is gone; nothing else changes |
| ToSpotify.Mirror.GetCurrentOrNextChannel | functions/to-spotify/main.py:269-290 | answers what SelectChannel answers, and leaves the channel cursor as SelectChannel says. The recursion terminates |
| ToSpotify.Mirror.SaveCursors | functions/to-spotify/main.py:293-303 | the cursor table becomes exactly SavedCursors of the old one |
| ToSpotify.Mirror.GetNextTracks | functions/to-spotify/main.py:306-320 | answers exactly NextTracks for the current track cursor |
| ToSpotify.Mirror.FindOnSpotify | functions/to-spotify/main.py:158-170 | logs exactly one limit-1 track search for the built query, and answers its best hit |
| ToSpotify.Mirror.IsTrackDuplicate | functions/to-spotify/main.py:209-215 | true exactly when the duplicate index holds (channel, uri) |
| ToSpotify.Mirror.AddTrackToDuplicateIndex | functions/to-spotify/main.py:218-225 | the index maps (channel, uri) to the playlist; nothing else changes |
| ToSpotify.Mirror.GetLastPlaylistForChannel | functions/to-spotify/main.py:173-181 | none exactly when the channel has no playlist. Otherwise its highest-num row |
| ToSpotify.Mirror.CreatePlaylistForChannel | functions/to-spotify/main.py:184-201 | (1) A missing channel row is an IndexError with nothing created. (2) Otherwise exactly one public playlist named after the channel is created and recorded with num 1 |
| ToSpotify.Mirror.GetPlaylistForChannel | functions/to-spotify/main.py:204-206 | (1) Answers PlaylistChoice, issues exactly CreationCalls and counts them as created. (2) The playlist table becomes PlaylistsAfter. (3) Afterwards the answer is the channel's highest-num playlist, so asking again creates nothing |
| ToSpotify.Mirror.AddTrackToSpotifyPlaylist | functions/to-spotify/main.py:228-235 | (1) The log gains any creation and then exactly one prepend, at position 0, to the chosen playlist. (2) The playlist table becomes PlaylistsAfter, and the index maps (channel, uri) to the playlist. (3) With no playlist and no channel row it is an IndexError, and nothing changes |
| ToSpotify.Mirror.PlaceMatch | functions/to-spotify/main.py:245-266 | the tables, log and created count become exactly Place of the old ones: the prepend, the index entry and the track update, in that order. The object stays consistent |
| ToSpotify.Mirror.SpotifyLookup | functions/to-spotify/main.py:238-266 | the tables, log and created count become exactly Lookup of the old ones, so LookupCases describes every outcome |
| ToSpotify.Mirror.LookUpRecord | functions/to-spotify/main.py:337-339 | a record without a NewImage, or with a spotify_uri, changes nothing at all. Otherwise the state becomes Lookup of its image |
| ToSpotify.Mirror.HandleRecords | functions/to-spotify/main.py:336-339 | the state becomes LookupAll of the qualifying images, in stream order, stopping at the first exception. A batch with none changes nothing |
| ToSpotify.Mirror.LookUpBatch | functions/to-spotify/main.py:350-351 | every track of the page is looked up in order; the state becomes LookupAll of them, and none fails |
| ToSpotify.Mirror.Rediscover | functions/to-spotify/main.py:340-353 | (1) The state becomes LookupAll of BatchTracks, and the cursors become BatchCursors whatever the outcome. (2) From coherent cursors none of the handler's own errors (KeyError, IndexError, StartKeyOutsideQuery, RecursionError) occurs, and the cursors left are coherent |
| ToSpotify.Mirror.Handle | functions/to-spotify/main.py:330-353 | (1) With Records: LookupAll of the qualifying images, cursors untouched. (2) Without: Rediscover, and the cursors become BatchCursors whatever the outcome. (3) In both, the tables change only by placements of the looked-up tracks' hits, and only their rows are rewritten; reactive searches are exactly those of the images. (4) The prepend log stays in step with the placements |

## Left out

- OAuth and token persistence (`restore_spotify_token`, `store_spotify_token`, `get_spotify`): these are auth plumbing with a file side channel. The Spotify client is a constructor argument.
- `DecimalEncoder`: a JSON conversion through floating point, used only by the token code.
- `deserialize_record`: a thin wrapper over boto3's TypeDeserializer. Stream records carry their deserialized image directly.
- The Spotify search ranking and `split_artist_track`: foreign code. They are uninterpreted: a fixed ranking map and a function field.
- `datetime.now`: the timestamp is one `now` parameter for the whole invocation. main.py:262 reads the clock once per matched track.
- A changing channel table: the model assumes the channel table stays fixed across invocations. An inserted channel between the channel cursor and the track cursor's channel makes every later invocation fail (see "Facts about the code").
- DynamoDB's 1 MB page limit and other wire details: the model keeps only Items and the presence and value of LastEvaluatedKey.
- Track-row attributes the handler neither reads nor sets: they are not modelled.
- Concurrency between invocations, and the race between `is_track_duplicate` and `add_track_to_duplicate_index`: one sequential invocation is modelled.
- Playlist capacity rollover: the code has none, and it never reads `PLAYLIST_EXPECTED_MAX_LENGTH`.
- Logging through `print`, and the `__main__` block: these are output only.
- ToSpotify.Mirror.GetCurrentOrNextChannel: on an empty channel table it stops with RecursionError after the first retry. Python would keep recursing until its recursion limit, with the same query and the same deletion on every retry.
- ToSpotify.Mirror.Handle: a failure is an `Outcome` value. Python would propagate an exception. State written before a failure stays written, in both.
- Failing Spotify and DynamoDB calls: the model assumes that every search, playlist call and table call succeeds. In the code:
  - a search error is re-raised (main.py:165-170);
  - `SpotifyAPILimitReached` is declared (main.py:39) but never raised;
  - an exception from a lookup at main.py:350-351 skips `save_cursors` at main.py:353, so the cursors stay where they were;
  - an exception after the prepend at main.py:230-233 and before the index write at main.py:234 leaves a placed pair out of the duplicate index.

  Only the handler's own errors (KeyError, IndexError, StartKeyOutsideQuery, RecursionError) are modelled as failures.
