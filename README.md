# Localify core in Dafny

Localify is a browser music player: the user drops audio files into the page, and the player builds
a library of songs, albums, artists and playlists from their tags. It plays them through a queue
with shuffle and repeat, records play counts, shows synced lyrics and offers "smart" playlists.
This project models the sequential logic under the React rendering, and proves what that logic promises.

Modules, one per source file (the playback provider is split in three):

- `MusicContext` (`contexts/MusicContext.tsx`): the class `MusicEngine`, whose fields are the
  provider's state. It holds the library and its play histories, the play and original queues, the
  shuffle and repeat modes, the current song and lyrics, and the liked, pinned, recent and playlist
  data. Each method is one of the provider's callbacks. A React `setX` is an assignment to the
  field; an updater function is applied to the field's old value. Every method's `ensures` ties the
  new state to a pure function of the old one (`Played`, `Advanced`, `ShuffleToggled`, ...), and
  the lemmas beside them prove what the callbacks promise. Examples: history counts rise by exactly
  one, queue positions move as stated, three repeat toggles are the identity, and shuffle off
  restores the original queue.
- `LibraryModel`: the `songs` merge with the song history, and the album and artist builders, as
  loops proved against the derivations they compute. Also `getItemById`.
- `SmartPlaylists`: `getSmartPlaylists`, the filter/sort/truncate pipeline of ten candidates.
- `LyricsService` (`services/lyricsService.ts`): the LRC parser and the normalisation of a lyrics
  response.
- `LyricsCache` (`services/lyricsCache.ts`): the read-modify-write cache over a stored blob that
  may be missing or corrupt, and whose write may fail.
- `QueueView` (`components/QueueView.tsx`): the drag-reorder panel, as a class with its drag
  indices, and the "Next Up" list.
- `Search`, `LibraryItems` (`pages/Library.tsx`, plus the item helpers shared by
  `components/ItemCard.tsx` and `components/Sidebar.tsx`), `ItemCard`, `Sidebar`, `LyricsView`,
  `PlaylistView`, `ArtistView`, `Home` and `MetadataReader`: the list selections and string rules
  of those views, as functions.
- Helpers: `Types` (the records of `types.ts`), `Optional`, `Seqs` (filter, take, find, and a
  stable sort by key, since JavaScript's sort is stable), `JsText` (`trim`, `split`,
  `toLowerCase`, `parseInt`, `String(n)`) and `Uri` (`encodeURIComponent` and its decoder, over
  UTF-8).

Modelling choices:

- The outside world enters as parameters:
  - `now` stands for `Date.now()`;
  - `hour` stands for the hour of day;
  - `position` is the playback position in seconds;
  - `audioStarts` says whether the audio element's `play()` succeeded;
  - `draws` are the random draws behind a shuffle, so a shuffle is some permutation;
  - `fetched` is what the lyrics service returned;
  - `writeSucceeds` says whether the cache write succeeded.
- `playSong`'s lyrics lookup runs to completion inside `PlaySong`, in one step. The decision
  it takes is the pure function `LyricsDecision`:
  - explicit flag already known → no lookup;
  - cache hit → apply the cached lyrics;
  - otherwise → fetch, and apply the result or a negative one.
- On a failed lookup the code applies `{null, null, false}` to the song but does not write it to
  the cache (`contexts/MusicContext.tsx:288-289`); the model follows the code
  (`NegativeResultNotCached`). Replaying the updated song (the current song, or its library
  entry) does not fetch again, because its explicit flag is now set (`ReplayKeepsLyrics`). The
  queues still hold the copy from before the lookup, with the flag unknown. So when `playNext`,
  `playPrev` or the queue panel plays that copy, the lyrics are fetched again
  (`QueuedCopyLooksUpAgain`).
- Links go through the hash router of `App.tsx`. `RouteOf` models what the router does to a link:
  it cuts the path at the first `?` or `#`, matches one non-empty segment after the route's
  prefix, and hands the page that segment percent-decoded. A malformed escape is handed over as
  it stands.
- Durations and positions are exact `real`s. Lyric start times are integer milliseconds.

## Model

| member | source | states |
|---|---|---|
| MusicContext.BumpedCounts | contexts/MusicContext.tsx:254-256 | a history bump raises the key's play count by exactly one and sets lastPlayed to now; every other key is unchanged |
| MusicContext.BumpedTwice | contexts/MusicContext.tsx:254 | two bumps of one key add two plays, and the last time wins |
| MusicContext.AddRecentShape | contexts/MusicContext.tsx:189-195 | the new entry is first, no other entry has its id, there are at most 20 entries, and the others keep their relative order; when the list is full, the entries kept are the most recent ones with another id |
| MusicContext.AddRecentKeepsIdsUnique | contexts/MusicContext.tsx:189-195 | a recent list with distinct ids keeps distinct ids |
| MusicContext.AddRecentTwice | contexts/MusicContext.tsx:189-195 | adding the same item twice is the same as adding it once |
| MusicContext.Toggle | contexts/MusicContext.tsx:351 | the toggled set gains the key iff it lacked it; no other key changes |
| MusicContext.ToggleTwice | contexts/MusicContext.tsx:354 | toggling twice restores the set |
| MusicContext.NextRepeat | contexts/MusicContext.tsx:330 | repeat goes none to all, all to one, one to none |
| MusicContext.RepeatCycle | contexts/MusicContext.tsx:330 | three repeat toggles are the identity |
| MusicContext.AddToPlaylist | contexts/MusicContext.tsx:353 | the target playlist gains the song at the end only when missing; every other playlist is unchanged |
| MusicContext.AddToPlaylistIdempotent | contexts/MusicContext.tsx:353 | adding the same song twice equals adding it once |
| MusicContext.AddToPlaylistNoRepeats | contexts/MusicContext.tsx:353 | a playlist without repeated ids keeps none |
| MusicContext.NewPlaylistId | contexts/MusicContext.tsx:352 | a new playlist's id is `playlist-` followed by the clock's decimal digits |
| MusicContext.LyricsDecision | contexts/MusicContext.tsx:282-289 | known explicit flag: no lookup; cache hit: apply it; otherwise apply the fetch result, or a negative one, and cache only a positive result |
| MusicContext.WithLyrics | contexts/MusicContext.tsx:274-280 | applying lyrics data sets the song's synced and plain lyrics and explicit flag and keeps every other field |
| MusicContext.LyricsSettle | contexts/MusicContext.tsx:282 | the song object that lyrics were applied to has a known explicit flag, so playing that object takes no lookup |
| MusicContext.NegativeResultNotCached | contexts/MusicContext.tsx:288-289 | a failed fetch leaves the cache blob as it was, and the song gets empty lyrics |
| MusicContext.LyricsText | contexts/MusicContext.tsx:271-272 | the player's lyric fields are the song's own |
| MusicContext.ReplaceSong | contexts/MusicContext.tsx:276 | exactly the entries with the song's id are replaced; the length and all other entries are kept |
| MusicContext.NextUntagged | contexts/MusicContext.tsx:228-241 | the background tagger picks the first untagged library song when AI is on, and finds one whenever one exists |
| MusicContext.SpotlightIgnoresPriorSort | contexts/MusicContext.tsx:396 | the spotlight is the same whether or not the shared artist list was already sorted in place |
| MusicContext.CurrentIndex | contexts/MusicContext.tsx:294 | the index of the first queue entry with the current song's id, or -1 exactly when there is none |
| MusicContext.CurrentIndexFirst | contexts/MusicContext.tsx:294 | with distinct ids, the index of a queued song is its only position |
| MusicContext.FindUniqueId | contexts/MusicContext.tsx:294 | finding by id in a queue with distinct ids gives the one entry with that id |
| MusicContext.TagsAppliedAt | contexts/MusicContext.tsx:236-238 | applying AI tags changes only the tags of the songs with that id |
| MusicContext.NextIndex | contexts/MusicContext.tsx:296-305 | next plays index + 1; at the end, index 0 only under repeat all, otherwise it stops |
| MusicContext.PrevIndex | contexts/MusicContext.tsx:307-317 | previous plays index - 1; at index 0, the last index only under repeat all, otherwise nothing |
| MusicContext.RestoreAfterSave | contexts/MusicContext.tsx:107-134 | a new session restores the saved likes, pins, recent items, playlists, AI switch and histories; the library, queues and player start afresh |
| MusicContext.PlayedCounts | contexts/MusicContext.tsx:244-269 | playing a song bumps the song, album and artist histories at their keys with the same now, keeps other songs' counts, puts the album first in the recent items, and leaves likes, pins, playlists and modes alone |
| MusicContext.PlayedQueue | contexts/MusicContext.tsx:259-268 | the original queue becomes the given one, or the whole library when it is empty; the play queue is that queue, or a shuffle of it when shuffle is on; the queue invariant holds |
| MusicContext.PlayedLyrics | contexts/MusicContext.tsx:270-291 | the current song gets the lyrics the lookup decided, as do the library entries with its id; a fetched result is read back from the cache after a successful write; a failed lookup leaves the cache alone |
| MusicContext.ReplayKeepsLyrics | contexts/MusicContext.tsx:282 | replaying the updated current song after a lookup takes no new lookup: the cache, the library and the current song stay as they are |
| MusicContext.QueuedCopyLooksUpAgain | contexts/MusicContext.tsx:274-289 | after a lookup that found nothing, the queue still holds the song with its flag unknown, while the current song's flag is known; the cache still misses, so playing the queued copy fetches again |
| MusicContext.AdvancedQueueValid | contexts/MusicContext.tsx:296-305 | playing next keeps the queue invariant |
| MusicContext.PreviousQueueValid | contexts/MusicContext.tsx:307-317 | playing previous keeps the queue invariant |
| MusicContext.AdvanceMovesToNext | contexts/MusicContext.tsx:296-304 | without shuffle and with distinct ids, playing next from index i before the last makes index i + 1 current |
| MusicContext.AdvanceAtEnd | contexts/MusicContext.tsx:300-302 | at the last index, repeat all plays index 0 with the original queue; none and one both only set isPlaying false |
| MusicContext.ShuffleToggledValid | contexts/MusicContext.tsx:323-328 | toggling shuffle flips the mode, keeps the original queue, and leaves the play queue equal to it (off) or a permutation of it (on) |
| MusicContext.ShuffleTwiceRestores | contexts/MusicContext.tsx:323-328 | shuffle on then off gives back the queue state exactly, apart from the remembered shuffle |
| MusicContext.QueueUpdatedValid | contexts/MusicContext.tsx:366 | a new queue becomes both the play queue and the original queue; the modes are kept and the queue invariant holds |
| MusicContext.SongRemovedSpec | contexts/MusicContext.tsx:367 | removing the current song changes nothing; removing another id drops every entry with it, keeps every other entry with all its copies in order, makes the original queue the played one, and changes nothing else |
| MusicContext.SmartBuildSortsArtists | contexts/MusicContext.tsx:396 | building the smart playlists leaves the artist memo sorted by plays, and the next build gives the same playlists |
| MusicContext.MusicEngine.constructor | contexts/MusicContext.tsx:72-102 | the initial state over the given cache store: empty library, histories and queues, nothing playing, repeat none, AI on |
| MusicContext.MusicEngine.LoadSaved | contexts/MusicContext.tsx:107-124 | the saved liked, pinned, recent, playlist and history data are loaded into their fields |
| MusicContext.MusicEngine.AddSongs | contexts/MusicContext.tsx:223 | new songs are appended to the raw library in order |
| MusicContext.MusicEngine.ApplyTags | contexts/MusicContext.tsx:236-238 | the AI tags land on the matching library song |
| MusicContext.MusicEngine.AddRecentItem | contexts/MusicContext.tsx:189-195 | the recent list becomes AddRecent of the old one |
| MusicContext.MusicEngine.PlaySong | contexts/MusicContext.tsx:244-292 | the state becomes Played(old state, song, queue, ...) |
| MusicContext.MusicEngine.StartSong | contexts/MusicContext.tsx:244-272 | the history, queue and player part of playSong, before the lyrics lookup |
| MusicContext.MusicEngine.LoadLyrics | contexts/MusicContext.tsx:274-291 | the lookup decided by LyricsDecision is applied to the player, the library and the cache |
| MusicContext.MusicEngine.PlayNext | contexts/MusicContext.tsx:296-305 | does nothing when the current song is not queued; otherwise moves as NextIndex says |
| MusicContext.MusicEngine.PlayPrev | contexts/MusicContext.tsx:307-317 | with the current song queued and past 3 seconds, it only rewinds; otherwise it moves as PrevIndex says |
| MusicContext.MusicEngine.TogglePlay | contexts/MusicContext.tsx:319 | flips isPlaying even with no current song; pauses the audio when it was playing, and resumes it only when a song is loaded |
| MusicContext.MusicEngine.ToggleShuffle | contexts/MusicContext.tsx:323-328 | the queues become ShuffleToggled of the old ones, so the queue invariant holds afterwards |
| MusicContext.MusicEngine.ToggleRepeat | contexts/MusicContext.tsx:330 | the repeat mode moves one step along the cycle |
| MusicContext.MusicEngine.HandleSongEnd | contexts/MusicContext.tsx:333 | under repeat one, the song restarts in place and nothing changes; otherwise it acts as PlayNext |
| MusicContext.MusicEngine.UpdateQueue | contexts/MusicContext.tsx:366 | the play queue becomes the given one |
| MusicContext.MusicEngine.RemoveSongFromQueue | contexts/MusicContext.tsx:367 | removing the current song's id changes nothing; any other id is filtered out of the play queue, which becomes the original queue too |
| MusicContext.MusicEngine.ToggleLikeSong | contexts/MusicContext.tsx:351 | the liked set is toggled at the song id |
| MusicContext.MusicEngine.TogglePinItem | contexts/MusicContext.tsx:354 | the pinned set is toggled at the item id |
| MusicContext.MusicEngine.CreatePlaylist | contexts/MusicContext.tsx:352 | an empty playlist with the clock-based id is appended |
| MusicContext.MusicEngine.AddSongToPlaylist | contexts/MusicContext.tsx:353 | the playlists become AddToPlaylist of the old ones |
| MusicContext.MusicEngine.ToggleAI | contexts/MusicContext.tsx:136 | the AI flag flips and nothing else changes |
| MusicContext.MusicEngine.GetSmartPlaylists | contexts/MusicContext.tsx:370-412 | returns the smart playlists of the current library and leaves the artist memo sorted in place |
| LibraryModel.WithHistory | contexts/MusicContext.tsx:138-141 | a song takes its play count from the history when that is non-zero, else keeps its own; its last-played time is the history's, or none; id, date, artist and album are kept |
| LibraryModel.MergedSongsOrder | contexts/MusicContext.tsx:138-142 | the merged songs keep the library's songs, each with its history, sorted stably by date added |
| LibraryModel.TypeForCount | contexts/MusicContext.tsx:155-157 | 1 song makes a Single, 2 to 4 an EP, anything else an Album |
| LibraryModel.KeyHasSongs | contexts/MusicContext.tsx:146-152 | every album key comes from some song |
| LibraryModel.GroupShellStep | contexts/MusicContext.tsx:146-152 | adding one song extends its key's group, or opens a new one |
| LibraryModel.AlbumContents | contexts/MusicContext.tsx:147-163 | the album's songs are exactly those with its key, sorted stably by track number with a missing or 0 track last; its type comes from the count; play count and last-played time come from the album history |
| LibraryModel.AlbumsOfKeys | contexts/MusicContext.tsx:144-165 | one album per distinct key, in first-seen order |
| LibraryModel.SongInExactlyOneAlbum | contexts/MusicContext.tsx:146-152 | every song is in exactly one album, the one with its key |
| LibraryModel.AlbumMembers | contexts/MusicContext.tsx:146-152 | an album's songs are exactly the library songs with its key |
| LibraryModel.AlbumKeysCanCollide | contexts/MusicContext.tsx:147 | album "a-b" by "c" and album "a" by "b-c" share the key "a-b-c" |
| LibraryModel.GroupByAlbum | contexts/MusicContext.tsx:145-152 | the grouping loop collects the album keys in first-seen order and, for each, the songs with that key in library order |
| LibraryModel.BuildAlbums | contexts/MusicContext.tsx:144-166 | the builder returns exactly the derived albums |
| LibraryModel.NameHasSongs | contexts/MusicContext.tsx:170-175 | every artist name comes from some song |
| LibraryModel.ArtistShellStep | contexts/MusicContext.tsx:170-175 | adding one song extends its artist's group, or opens a new one |
| LibraryModel.ArtistContents | contexts/MusicContext.tsx:170-184 | the artist's songs and albums are those by it, in library order; its cover is its first album's; play count and last-played time come from the artist history |
| LibraryModel.ArtistsOfNames | contexts/MusicContext.tsx:168-186 | one artist per distinct name, and every song is in its artist's entry |
| LibraryModel.GroupByArtist | contexts/MusicContext.tsx:169-175 | the grouping loop collects the artist names in first-seen order and, for each, the songs by that artist in library order |
| LibraryModel.BuildArtists | contexts/MusicContext.tsx:168-186 | the builder returns exactly the derived artists |
| LibraryModel.LikedPlaylist | contexts/MusicContext.tsx:360 | the liked playlist holds exactly the ids of library songs that are liked: one per liked library song, in library order (the library's ids with the unliked ones filtered out) |
| LibraryModel.ItemById | contexts/MusicContext.tsx:356-363 | by kind: the first album with the id, the first artist with the name, the liked playlist, or the first user playlist with the id; found exactly when one exists |
| SmartPlaylists.ShuffledSample | contexts/MusicContext.tsx:372 | a shuffled sample has min(cap, pool size) songs, all from the pool and none more often than there |
| SmartPlaylists.MoodieWordIsFirstWord | contexts/MusicContext.tsx:380-384 | the mix's keyword is the first word of its title for that hour |
| SmartPlaylists.MoodieMix | contexts/MusicContext.tsx:377-385 | the hour band's title, and as many songs with the band's mood as there are, up to 30 |
| SmartPlaylists.DailyDrive | contexts/MusicContext.tsx:389 | a sample of up to 50 from the songs played more than 5 times followed by the songs not played for a month, with never-played counting as time 0 |
| SmartPlaylists.DailyDriveRepeats | contexts/MusicContext.tsx:389 | a song played more than 5 times and never played (lastPlayed unset) is in the pool twice |
| SmartPlaylists.WorkoutMix | contexts/MusicContext.tsx:390 | as many songs with the workout mood as there are, up to 50 |
| SmartPlaylists.FocusFlow | contexts/MusicContext.tsx:391 | as many songs with the focus mood as there are, up to 50 |
| SmartPlaylists.OnRepeat | contexts/MusicContext.tsx:392 | the first 30 of the songs played in the last week, by play count descending |
| SmartPlaylists.OnRepeatIsTop | contexts/MusicContext.tsx:392 | the songs kept and the songs cut are together the songs played this week, and no song cut has more plays than one kept |
| SmartPlaylists.ThrowbackJams | contexts/MusicContext.tsx:393 | songs played more than twice and not in the last month, never-played counting as time 0, as many as there are up to 40 |
| SmartPlaylists.NewArrivals | contexts/MusicContext.tsx:394 | up to 30 library songs, most recently added first |
| SmartPlaylists.NewArrivalsIsTop | contexts/MusicContext.tsx:394 | the songs kept and the songs cut are together the library, and no song cut was added later than one kept |
| SmartPlaylists.ArtistSpotlight | contexts/MusicContext.tsx:395-399 | none exactly when there are no artists; otherwise named after the first artist with the highest play count, and holding a shuffled sample of up to 40 of its songs |
| SmartPlaylists.SpotlightIsFirstMostPlayed | contexts/MusicContext.tsx:396 | the first artist after the sort is the first artist with the highest play count |
| SmartPlaylists.AfterDark | contexts/MusicContext.tsx:400 | as many songs with the late-night mood as there are, up to 40 |
| SmartPlaylists.CountGenres | contexts/MusicContext.tsx:402-403 | the tally lists each genre once, in first-seen order, with its number of occurrences across the songs' genre lists |
| SmartPlaylists.CountSongGenres | contexts/MusicContext.tsx:403 | adding one song's genres to a correct tally of the songs so far gives a correct tally |
| SmartPlaylists.TopGenreExists | contexts/MusicContext.tsx:404-405 | a top genre exists exactly when some song lists a genre |
| SmartPlaylists.FirstMostFrequent | contexts/MusicContext.tsx:404 | the first entry after the sort has the highest count, and no earlier entry has that count |
| SmartPlaylists.TopGenreIsMostFrequent | contexts/MusicContext.tsx:402-404 | no genre occurs more often than the top genre, and it is the first in first-seen order with that count |
| SmartPlaylists.GenreExplorer | contexts/MusicContext.tsx:401-407 | none when there is no top genre or it is empty; otherwise the top genre's songs, as many as there are up to 50 |
| SmartPlaylists.Candidate | contexts/MusicContext.tsx:387-408 | each candidate has at most its cap of songs |
| SmartPlaylists.Candidates | contexts/MusicContext.tsx:387-408 | ten candidates, each within its cap (30, 50, 50, 50, 30, 40, 30, 40, 40, 50) |
| SmartPlaylists.ShownFrom | contexts/MusicContext.tsx:410 | each shown playlist is a candidate with more than 5 songs |
| SmartPlaylists.ShownHas | contexts/MusicContext.tsx:410 | every candidate with more than 5 songs is shown |
| SmartPlaylists.ShownKeepsOrder | contexts/MusicContext.tsx:410 | shown playlists keep the candidates' order |
| SmartPlaylists.SmartPlaylists | contexts/MusicContext.tsx:370-412 | empty with no songs or with AI off; otherwise exactly the candidates with more than 5 songs; each has more than 5 and at most its cap |
| SmartPlaylists.SmartPlaylistsInOrder | contexts/MusicContext.tsx:410 | the playlists come in the candidates' order |
| SmartPlaylists.ListIsShownCandidates | contexts/MusicContext.tsx:371-410 | with songs and AI on, the list is the candidates that pass the filter |
| Seqs.Shuffled | contexts/MusicContext.tsx:263 | a shuffle is a permutation of its input |
| Seqs.SortByKey | contexts/MusicContext.tsx:142 | the sort is sorted by the key and is a permutation |
| Seqs.SortIsStable | contexts/MusicContext.tsx:142 | elements with equal keys keep their input order |
| Seqs.SortOfSorted | contexts/MusicContext.tsx:396 | sorting a sorted list changes nothing |
| Seqs.MapFilter | contexts/MusicContext.tsx:360 | filtering then mapping is mapping then filtering by the same test on the mapped value |
| Seqs.SortHeadIsFirstLeast | contexts/MusicContext.tsx:396 | the sort's head is the first element with the least key |
| LyricsService.UpToLineEnd | services/lyricsService.ts:9 | the text up to the first line terminator, which it does not contain |
| LyricsService.MatchStart | services/lyricsService.ts:9 | a timestamp recognised at the start of the text is well formed: two-digit minutes and seconds and a 2- or 3-digit fraction |
| LyricsService.MatchAt | services/lyricsService.ts:9 | a timestamp recognised at a position is well formed |
| LyricsService.FirstMatch | services/lyricsService.ts:13 | the first position from which a timestamp matches; with none, no position matches |
| LyricsService.PadFraction | services/lyricsService.ts:17 | a 2-digit fraction gets one `0` appended; a 3-digit one is kept |
| LyricsService.FractionUnits | services/lyricsService.ts:17 | the padded fraction reads as milliseconds |
| LyricsService.ParseLine | services/lyricsService.ts:12-19 | a line gives an entry exactly when a timestamp matches somewhere in it |
| LyricsService.ParseLines | services/lyricsService.ts:11-21 | at most one entry per input line |
| LyricsService.ParseSyncedLyrics | services/lyricsService.ts:5-24 | none for absent or empty input; otherwise the parsed lines, present exactly when some line matches, so never an empty list |
| LyricsService.ParseLinesAppend | services/lyricsService.ts:11-21 | parsing distributes over concatenation, so nothing is reordered |
| LyricsService.ParseWellFormedLine | services/lyricsService.ts:9-19 | `[mm:ss.ff]text` gives mm·60000 + ss·1000 + fraction, and text trimmed |
| LyricsService.TwoAndThreeDigitFractionsAgree | services/lyricsService.ts:17 | `.50` and `.500` give the same start |
| LyricsService.UnanchoredMatch | services/lyricsService.ts:13 | a timestamp after other text still matches |
| LyricsService.ParseJoinedLines | services/lyricsService.ts:8-23 | lines joined with newlines parse to their lines in order |
| LyricsService.ExampleTimestamps | services/lyricsService.ts:17 | `[00:01.50]` gives 1500 and `[00:03.00]` gives 3000 |
| LyricsService.TwoLines | services/lyricsService.ts:8-23 | two timestamped lines parse to two entries in order |
| LyricsService.NoNewline | services/lyricsService.ts:8-9 | a timestamped line whose text has no line terminator contains no newline, so it stays one line |
| LyricsService.NormaliseLyrics | services/lyricsService.ts:31-38 | no response gives none; an empty plain text becomes none, a non-empty one is kept; explicit only when the field is exactly true; synced lyrics are the LRC parser's result for the answer's synced text, and never an empty list |
| JsText.Trim | services/lyricsService.ts:19 | the text is the trimmed part with only white space before and after it, and the trimmed part has no white space at either end |
| JsText.TrimKeepsTrimmed | services/lyricsService.ts:19 | trimming a text without white space at its ends changes nothing |
| JsText.Split | services/lyricsService.ts:8 | there is at least one piece, and no piece contains the separator |
| JsText.SplitJoin | services/lyricsService.ts:8 | splitting a join of separator-free pieces gives the pieces back |
| JsText.JoinSplit | pages/LyricsView.tsx:85 | joining the pieces of a split gives the text back |
| JsText.ToLower | pages/Search.tsx:16 | lower-casing keeps the length |
| JsText.ToLowerIdempotent | pages/Search.tsx:16-19 | lower-casing twice equals lower-casing once |
| JsText.NatToString | components/ItemCard.tsx:29 | the decimal digits of a number, none of them a leading zero |
| JsText.ParseIntNatToString | services/metadataReader.ts:23 | parseInt reads back the decimal text of a number |
| JsText.ParseIntDigits | services/metadataReader.ts:23 | parseInt stops at the first non-digit after a digit run |
| JsText.FirstPiece | services/metadataReader.ts:23 | the first piece of a split is the text before the first separator |
| LyricsCache.CacheOf | services/lyricsCache.ts:11-19 | a missing or corrupt blob reads as the empty cache |
| LyricsCache.Lookup | services/lyricsCache.ts:21-23 | an entry is found iff the blob parses and holds the id |
| LyricsCache.Store | services/lyricsCache.ts:25-34 | a successful write stores the cache with the id set; a failed write leaves the blob as it was |
| LyricsCache.ReadAfterWrite | services/lyricsCache.ts:21-34 | after a successful write the read gives the data written |
| LyricsCache.WriteKeepsOthers | services/lyricsCache.ts:25-34 | a write leaves every other id's entry as it was |
| LyricsCache.WriteTwice | services/lyricsCache.ts:25-34 | the second write to an id overwrites the first |
| LyricsCache.WriteOverCorrupt | services/lyricsCache.ts:11-34 | a write over a corrupt blob leaves only the new entry |
| LyricsCache.LyricsStore.constructor | services/lyricsCache.ts:9 | a store opened over a given blob |
| LyricsCache.LyricsStore.GetLyricsFromCache | services/lyricsCache.ts:21-23 | returns Lookup of the blob and changes nothing |
| LyricsCache.LyricsStore.SetLyricsInCache | services/lyricsCache.ts:25-34 | the blob becomes Store of the old blob |
| QueueView.MovedAt | components/QueueView.tsx:21-23 | after a move the dragged song is at the drop index, the entries between the two indices shift one place toward the gap, and the rest stay |
| QueueView.MovedPermutes | components/QueueView.tsx:21-23 | the moved queue has the same length, is a permutation, has the dragged song at the drop index, and without it equals the old queue without it, so the other songs keep their order |
| QueueView.MoveBack | components/QueueView.tsx:21-23 | moving back from the drop index to the drag index restores the queue |
| QueueView.MoveInPlace | components/QueueView.tsx:21-23 | dropping a song where it was changes nothing |
| QueueView.MoveWithin | components/QueueView.tsx:21-23 | the two in-place splices on an array leave it holding the moved queue |
| QueueView.Reordered | components/QueueView.tsx:21-23 | the copy-and-splice of `handleDragEnd` returns the moved queue |
| QueueView.IndexOf | components/QueueView.tsx:60-61 | the first index of the song in the queue, or -1 when absent |
| QueueView.NextUp | components/QueueView.tsx:56 | the queue entries without the current song's id, as an ordered subsequence |
| QueueView.RowIndexInQueue | components/QueueView.tsx:56-61 | each Next Up row's drag index points at that song in the queue |
| QueueView.QueuePanel.constructor | components/QueueView.tsx:7-8 | both drag indices start unset |
| QueueView.QueuePanel.HandleDragStart | components/QueueView.tsx:10-13 | records the first index of the dragged song in the queue |
| QueueView.QueuePanel.HandleDragEnter | components/QueueView.tsx:15-17 | records the first index of the hovered song in the queue |
| QueueView.QueuePanel.HandleDragEnd | components/QueueView.tsx:19-28 | with both indices set, the queue is updated to the reorder; with either unset, it is not; both indices are reset either way |
| Search.SearchResults | pages/Search.tsx:11-43 | an empty query gives none; a song matches iff the lower-cased query is in its lower-cased title, artist or album; albums on name or artist; artists and playlists on name; each list is an ordered subsequence |
| Search.TopResultIsFirstMatch | pages/Search.tsx:45-52 | the top result is the first artist, else the first album, else the first playlist, and never a song |
| Search.TopSongs | pages/Search.tsx:54 | the first four song matches |
| Search.SongListsCoverMatches | pages/Search.tsx:100-103 | top songs and More Songs split the song matches at 4, and More Songs appears only past 4 |
| Search.NoResultsIffNothingMatches | pages/Search.tsx:74-89 | "no results" shows iff the query is non-empty and nothing matches |
| Uri.EncodeURIComponent | components/ItemCard.tsx:37 | the encoding contains no `/` and is no shorter than the text |
| Uri.DecodeEncode | pages/ArtistView.tsx:23 | decoding an encoded text, over UTF-8 escapes, gives the text back |
| Uri.DecodePlain | pages/ArtistView.tsx:23 | a text without `%` decodes to itself |
| LibraryItems.ItemTypeOf | components/ItemCard.tsx:16-20 | album for an album item (songs and type present), artist for an artist item (albums present), playlist otherwise |
| LibraryItems.ItemId | components/ItemCard.tsx:15 | the name for artists, the id otherwise |
| LibraryItems.ItemKeyResolves | contexts/MusicContext.tsx:356-363 | with unique ids, looking an item up by its kind and id gives the item back |
| LibraryItems.PathOf | App.tsx:139 | the hash router's path is the link up to the first `?` or `#`, and the whole link when it has neither |
| LibraryItems.PathOfCut | App.tsx:139 | a link is cut at its first `?` or `#` |
| LibraryItems.ArtistLinkRoundTrip | components/ItemCard.tsx:33-40 | the router hands an artist's link back as the artist's own name, whatever characters it holds |
| LibraryItems.AlbumLinkRoundTrip | components/ItemCard.tsx:33-40 | an album link routes back to the album id when the id has no `/`, `?`, `#` or `%` |
| LibraryItems.SlashedAlbumLinkIsUnrouted | App.tsx:122 | an album link whose id holds `/` matches no route |
| LibraryItems.QuestionMarkCutsAlbumLink | App.tsx:122 | an album link whose id holds `?` routes to the text before it |
| LibraryItems.AlbumLinkWithSlashIsUnrouted | components/ItemCard.tsx:36 | the album "Back in Black" by "AC/DC" gets a link no route accepts |
| LibraryItems.AlbumLinkWithQuestionMarkIsCut | components/ItemCard.tsx:36 | the album "What's Going On?" by "Marvin Gaye" gets a link that routes to the id "What's Going On" |
| LibraryItems.EncodedLinkRoundTrip | components/ItemCard.tsx:33-40 | with every link segment encoded, any item's link routes back to its kind and key |
| LibraryItems.FilterIsAllOfKind | pages/Library.tsx:13-27 | filter all gives playlists, then albums, then artists; a kind filter gives exactly that collection |
| LibraryItems.KindFilter | pages/Library.tsx:17-27 | filtering a collection of one kind by a kind keeps all of it or none |
| LibraryItems.PinnedFirstIsStablePartition | pages/Library.tsx:29-32 | pinned items first, then unpinned, each in input order; a permutation of the input |
| LibraryItems.ButtonsSelectFilters | pages/Library.tsx:53-54 | each button label, with its last letter dropped and lower-cased, selects its kind |
| ItemCard.CardSubtextTellsKinds | components/ItemCard.tsx:23-32 | "Artist" exactly for artists; a playlist's reads "Playlist · " then its song count; an album's does not start as a playlist's does |
| ItemCard.SongsToPlay | components/ItemCard.tsx:45-55 | an album's or artist's own songs; for a playlist, the library songs whose id it holds, in library order |
| ItemCard.PlaylistPlaysInLibraryOrder | components/ItemCard.tsx:54 | a playlist holding b then a plays a then b when the library has them in that order |
| ItemCard.HandlePlay | components/ItemCard.tsx:42-60 | nothing on an empty list; otherwise the first song plays with the list as queue |
| ItemCard.HandlePin | components/ItemCard.tsx:62-66 | the pin set is toggled at the item's id |
| Sidebar.SidebarSubtextTellsKinds | components/Sidebar.tsx:58-64 | the subtext's first two letters tell artists, albums and playlists apart, and an album's ends with its artist |
| Sidebar.LikedRowCountsLikes | components/Sidebar.tsx:132 | the Liked Songs row reads "Playlist · " then the number of liked ids |
| Sidebar.LikedRowOutlivesLibrary | components/Sidebar.tsx:124-132 | the row counts liked ids even when the library holds none of those songs and the liked page is empty |
| LyricsView.CurrentFrom | pages/LyricsView.tsx:57-62 | the first current line from a start index, or -1 |
| LyricsView.CurrentLineIndex | pages/LyricsView.tsx:57-62 | the first line whose interval holds the time, -1 iff none does |
| LyricsView.CurrentIsUnique | pages/LyricsView.tsx:57-62 | with ascending starts at most one line is current |
| LyricsView.CurrentLineIsTheCurrentLine | pages/LyricsView.tsx:57-67 | the highlighted line is the one current line |
| LyricsView.NoneBeforeFirstLine | pages/LyricsView.tsx:57-62 | before the first start, no line is active |
| LyricsView.NoneAfterDuration | pages/LyricsView.tsx:60-61 | at or after the duration, no line is active |
| LyricsView.SomeLineWhilePlaying | pages/LyricsView.tsx:57-62 | between the first start and the duration, some line is active |
| LyricsView.Shown | pages/LyricsView.tsx:74 | a line is printed as itself, or a non-breaking space when empty |
| LyricsView.LineTexts | pages/LyricsView.tsx:66-77 | one printed text per synced line |
| LyricsView.ShownAll | pages/LyricsView.tsx:85-86 | one printed paragraph per piece |
| LyricsView.ParagraphsKeepLines | pages/LyricsView.tsx:85-87 | one non-empty paragraph per line, the lines joining back to the text |
| LyricsView.PageFor | pages/LyricsView.tsx:43-92 | loading first, then non-empty synced lyrics, then unsynced text, then "no lyrics" |
| LyricsView.StartedSongShowsLyrics | pages/LyricsView.tsx:51-92 | after a song starts the page shows lyrics, or "no lyrics" exactly when the song has none |
| PlaylistView.CustomDescriptionShowsEntity | pages/PlaylistView.tsx:40 | the description as written holds the literal `&middot;` where the dot belongs, and no middle dot before it |
| PlaylistView.CustomDescriptionReadsBack | pages/PlaylistView.tsx:40 | the corrected description reads "Your custom playlist · " then the song count |
| PlaylistView.SongCountReadsBack | pages/PlaylistView.tsx:34 | the liked page's description "n songs" reads back n |
| PlaylistView.PageFor | pages/PlaylistView.tsx:18-44 | navigation state is shown verbatim; liked and user playlists show the library songs they hold, in library order; the liked page says "n songs", a user playlist's page says "Your custom playlist &middot; n songs" with the entity as literal text; a user id is not found exactly when no playlist has it, else the first playlist with it is shown |
| PlaylistView.PlayPlaylist | pages/PlaylistView.tsx:86-90 | nothing when play is disabled (no songs); otherwise the first song plays with the list as queue |
| PlaylistView.NonSpaceRun | pages/PlaylistView.tsx:51 | the text up to the first space, which it does not contain |
| PlaylistView.FromIndex | pages/PlaylistView.tsx:51 | the first position from i where a `from-` token starts, or -1 when there is none |
| PlaylistView.FromColour | pages/PlaylistView.tsx:51-52 | none exactly when the gradient has no `from-` token; otherwise a non-empty name without spaces |
| PlaylistView.FromColourOf | pages/PlaylistView.tsx:51 | a gradient `from-c` followed by a space or the end gives colour c |
| PlaylistView.TableColour | pages/PlaylistView.tsx:54-59 | the table's colour for a listed name, the fallback `#1a1a1a` otherwise |
| PlaylistView.GradientColour | pages/PlaylistView.tsx:49-62 | always a table colour or the fallback |
| PlaylistView.BackgroundColour | pages/PlaylistView.tsx:48-83 | a smart playlist's gradient colour; the liked page's colour; a user playlist with a cover gets the extracted colour, or the fallback |
| PlaylistView.Cover | pages/PlaylistView.tsx:46 | only a user playlist with songs has a cover, its first song's |
| PlaylistView.TableGradient | pages/PlaylistView.tsx:51-59 | a gradient from a table colour gets that colour, never the fallback |
| PlaylistView.TableAvoidsFallback | pages/PlaylistView.tsx:54-59 | no table colour is the fallback |
| PlaylistView.CandidateGradientHasColour | pages/PlaylistView.tsx:54-59 | each smart playlist's gradient starts from a table colour |
| PlaylistView.CandidateHasGradient | contexts/MusicContext.tsx:384-406 | each smart candidate carries its fixed gradient |
| PlaylistView.SmartPlaylistsHaveColours | pages/PlaylistView.tsx:49-59 | every returned smart playlist has a gradient whose colour is in the table, never the fallback |
| ArtistView.PageFor | pages/ArtistView.tsx:19-37 | no name redirects home; a name whose (second) decode throws fails; otherwise the page of the decoded name |
| ArtistView.NamedPage | pages/ArtistView.tsx:23-37 | the first artist with exactly that name, with its first five songs and its two shelves, or not found exactly when no artist has the name |
| ArtistView.DecodedOncePageFor | pages/ArtistView.tsx:19-27 | the page with the router's parameter used as it comes: never malformed, and the page of that very name |
| ArtistView.PopularIsFirstFive | pages/ArtistView.tsx:35 | Popular is the first five songs in order |
| ArtistView.ShelvesPartitionReleases | pages/ArtistView.tsx:36-37 | the two shelves keep order and together hold every release once |
| ArtistView.HeaderCountsReleases | pages/ArtistView.tsx:60 | the header reads back the number of releases |
| ArtistView.LinkParamIsName | pages/ArtistView.tsx:16 | the router hands the artist page the artist's own name |
| ArtistView.NamedPageIs | pages/ArtistView.tsx:23 | the first artist with a name gets its own page |
| ArtistView.ArtistLinkOpensArtist | pages/ArtistView.tsx:16-23 | an artist card's link opens that artist when its name holds no `%` |
| ArtistView.BadEscapeThrows | pages/ArtistView.tsx:23 | a `%` followed by a character that is not a hexadecimal digit makes the decode throw |
| ArtistView.PercentNameBreaksPage | pages/ArtistView.tsx:16-23 | the artist "50% Off" is handed over as "50% Off", and the page's second decode throws |
| ArtistView.DecodedOnceLinkOpensArtist | pages/ArtistView.tsx:16-23 | without the second decode, every artist card's link opens that artist |
| ArtistView.PlayArtist | pages/ArtistView.tsx:29-33 | nothing with no songs; otherwise the first song plays with all of them |
| Home.Greeting | pages/Home.tsx:12-17 | "Good morning" exactly before 12, "Good afternoon" from 12 to 17, "Good evening" from 18 |
| Home.GreetingChangesTwice | pages/Home.tsx:12-17 | through the day the greeting changes only after hours 11 and 17 |
| Home.ResolvedMembers | pages/Home.tsx:154-156 | an item is shown exactly when some recent entry resolves to it |
| Home.ResolvedKeepsOrder | pages/Home.tsx:154-156 | when every entry resolves, the items are those entries' items in order |
| Home.ResolvedSkips | pages/Home.tsx:154-156 | an entry that does not resolve is dropped |
| Home.QuickLinks | pages/Home.tsx:180-186 | the first 6 resolved recent items, or all of them when fewer |
| Home.QuickLink | pages/Home.tsx:25-32 | `/artist/` with the encoded name, `/album/` with the id, or `/playlist/` with the id |
| Home.QuickLinkTypeAgrees | pages/Home.tsx:39 | the card's kind is the item's kind |
| Home.QuickPlay | pages/Home.tsx:34-52 | nothing when the item resolves to no songs; otherwise the first song plays with them, playlist songs in library order |
| Home.CardState | pages/Home.tsx:82-91 | a smart card passes its title, songs, description and gradient |
| Home.CardGradient | pages/Home.tsx:103 | the playlist's gradient, or the zinc default |
| Home.CardOpensPlaylist | pages/Home.tsx:82-91 | the card's state renders a page with the playlist's title, songs and description, coloured from its gradient |
| Home.PlaySmartPlaylist | pages/Home.tsx:93-99 | nothing with no songs; otherwise the first song plays with the playlist's songs |
| Home.TopArtists | pages/Home.tsx:204 | up to 6 artists, play counts never rising along the list, all from the input |
| Home.TopArtistsAreTop | pages/Home.tsx:204 | shown and cut artists together are all artists, and no cut artist has more plays than a shown one |
| Home.PageFor | pages/Home.tsx:144-208 | the welcome page exactly when there are no songs; otherwise the greeting, quick links and top artists, with Made for You shown exactly when AI is on and the smart list is non-empty |
| Home.Render | pages/Home.tsx:154-158 | rendering builds the smart playlists, leaving the artist memo sorted, and shows PageFor of them |
| Home.MadeForYouIsSmartList | pages/Home.tsx:189-198 | with songs and AI on, Made for You is the smart list |
| Home.Background | pages/Home.tsx:122-141 | the extracted colour when the current song has a cover, else `#121212` |
| MetadataReader.ParseTrack | services/metadataReader.ts:21-27 | parseInt of the text before the first `/`; absent with no tag |
| MetadataReader.TrackOfTotal | services/metadataReader.ts:23 | `n/m` gives n |
| MetadataReader.NumericTrack | services/metadataReader.ts:22-23 | a non-zero numeric tag gives itself |
| MetadataReader.NoDigitsNoTrack | services/metadataReader.ts:23-26 | a tag with no leading digits gives no track |
| MetadataReader.LastDot | services/metadataReader.ts:32 | the last `.` index, or -1 |
| MetadataReader.StripExtension | services/metadataReader.ts:32 | a prefix of the name, shorter only by a `.ext` of characters other than `/` and `.` |
| MetadataReader.StripsOneExtension | services/metadataReader.ts:32 | only the last extension is removed |
| MetadataReader.KeepsNameWithoutExtension | services/metadataReader.ts:54 | a name without a proper extension is kept |
| MetadataReader.OrDefault | services/metadataReader.ts:32-34 | the tag when non-empty, otherwise the default |
| MetadataReader.ReadMetadata | services/metadataReader.ts:10-69 | the tagged or untagged record with the Unknown defaults, play count 0; a tagged picture becomes the `data:<format>;base64,<data>` cover text; rejected when the duration fails |
| MetadataReader.EmptyTagsLikeNoTags | services/metadataReader.ts:32-56 | empty tags give the same title, artist and album as no tags |

## Left out

- The audio element is not modelled: its play/pause event listeners, `seek`, `setVolume`, and the
  time and duration updates (`contexts/MusicContext.tsx:319-349`). The audio's start is the
  `audioStarts` parameter, and the playback position is a parameter.
- `toggleQueueVisibility` and `isQueueVisible`: a UI visibility flag with no logic beyond a flip.
- Asynchrony is not modelled. This covers the ordering of `playSong`'s awaits, the race with a
  lyrics result for a song no longer current, the background tagger's timing, and `loadFiles`'
  sequential awaits.
- The AI service (`services/aiService.ts`) is not part of this model. Its result is the tags
  handed to `ApplyTags`.
- Persistent storage is a map of blobs, so JSON (de)serialisation is not modelled. A stored value
  that parses but is not an object is not modelled either.
- Loading files is not modelled: `File`, `URL.createObjectURL`, jsmediatags and the base64 cover
  encoding. The tag reader's result is an input of `ReadMetadata`, with the picture's base64 text
  already computed.
- React's render rules are not modelled. `pages/Home.tsx:158` and `pages/PlaylistView.tsx:47` call
  a hook after an early return (`Home.tsx:144`, `PlaylistView.tsx:43`). React then throws when the
  early-return condition changes between renders, for example when the first songs are added while
  the home page is open.
- Random shuffles take their order from `draws`. So any permutation may come out, and the
  non-uniform distribution of a random comparator is not captured.
- `Date.now()` and the hour of the day are parameters.
- Floating-point values are modelled as exact reals, so rounding is not captured.
- LyricsView.CurrentLineIndex: compares the position as an exact real with start/1000, not in
  integer milliseconds.
- JsText.ToLower: lower-cases only ASCII capitals; Unicode case folding is left out.
- SmartPlaylists.CountGenres: lists genres in first-seen order. JavaScript's object key order puts
  integer-like keys first; that ordering is left out.
- The router library is not part of this model; `RouteOf` states what it does to a link. The
  browser's own escaping of characters in the URL fragment is not modelled: the router decodes
  it again, so the parameter is the same. The sidebar-resize variable and the drag counter of
  `App.tsx` are left out.
- The secondary result grids of the search page (`pages/Search.tsx:106-129`) are left out. They
  render the lists already modelled.
- ColorThief palette extraction and image loading: the extracted colour is a parameter.
- PlaylistView.TableColour: names from the colour table's object prototype are not modelled.
- MetadataReader.ParseTrack: a numeric track tag is taken to be a natural number.
- `useMemo` caching is not modelled, except the in-place sort of the artist memo.
- `components/Player.tsx`, `components/ContextMenu.tsx`, `components/SongList.tsx`,
  `components/Header.tsx`, `components/Icons.tsx` and `pages/AlbumView.tsx` are rendering only
  and are not part of this model.

## Findings

| source | as written | input that shows it | evidently intended | confidence | as-written member | corrected member |
|---|---|---|---|---|---|---|
| components/ItemCard.tsx:36 | an album link is `/album/` followed by the raw album id (so are `pages/Home.tsx:28` and `components/Sidebar.tsx:68`) | an album by "AC/DC" has an id containing `/`, so its link matches no route | the id encoded, as the artist link's name is | not executed | LibraryItems.AlbumLinkWithSlashIsUnrouted | LibraryItems.EncodedLinkRoundTrip |
| components/ItemCard.tsx:36 | the raw album id goes through the router, which cuts the path at `?` or `#` and decodes `%` escapes | the album "What's Going On?" by "Marvin Gaye" routes to the id "What's Going On", which no album has | the id encoded, so the router gives it back whole | not executed | LibraryItems.AlbumLinkWithQuestionMarkIsCut | LibraryItems.EncodedLinkRoundTrip |
| pages/ArtistView.tsx:23 | the page decodes the artist parameter that the router has already decoded | the artist "50% Off" is handed over as "50% Off", and the second decode throws while the page renders | the router's parameter used as it comes | not executed | ArtistView.PercentNameBreaksPage | ArtistView.DecodedOnceLinkOpensArtist |
| pages/PlaylistView.tsx:40 | the description is a JavaScript string holding the HTML entity `&middot;` | any user playlist with 3 songs shows "Your custom playlist &middot; 3 songs" | a middle dot, as on the other pages | not executed | PlaylistView.CustomDescriptionShowsEntity | PlaylistView.CustomDescriptionReadsBack |

