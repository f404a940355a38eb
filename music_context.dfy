/**
 * The playback engine (`contexts/MusicContext.tsx`): one object holding the library, the play
 * histories, the transport state (current song, queue, shuffle, repeat), the user's likes, pins,
 * recent items and playlists, and the artists memo that the smart-playlist builder reorders.
 *
 * React state updates are modelled as field assignments applied in program order. The audio
 * element is left out: whether `play()` resolves is the parameter `audioStarts`, the playback
 * position is `position`, and what the engine tells the element is a returned `AudioCommand`.
 * `Date.now()` is `now`, `Math.random` is a stream of draws, and the lyrics network lookup is its
 * result `fetched`.
 */
module MusicContext {
  import opened Optional
  import opened Seqs
  import opened JsText
  import opened Types
  import opened LibraryModel
  import opened SmartPlaylists
  import opened LyricsCache

  // ---------------------------------------------------------------- histories

  /** One play recorded in a history map at time `now`. */
  function Bumped(h: map<string, History>, key: string, now: int): map<string, History> {
    h[key := History((if key in h then h[key].playCount else 0) + 1, Some(now))]
  }

  /**
   * A play raises the counter of `key` by one (from 0 when the key is new) and sets its
   * last-played time to `now`; every other key keeps its counter.
   */
  lemma BumpedCounts(h: map<string, History>, key: string, now: int)
    ensures var r := Bumped(h, key, now);
      && r.Keys == h.Keys + {key}
      && r[key].playCount == (if key in h then h[key].playCount else 0) + 1
      && r[key].lastPlayed == Some(now)
      && forall k :: k in h && k != key ==> r[k] == h[k]
  {
  }

  /** Two plays of the same key count twice and remember the later time. */
  lemma BumpedTwice(h: map<string, History>, key: string, t1: int, t2: int)
    ensures Bumped(Bumped(h, key, t1), key, t2)[key]
         == History((if key in h then h[key].playCount else 0) + 2, Some(t2))
  {
  }

  // ---------------------------------------------------------------- recent items

  function RecentId(r: RecentItem): string {
    r.id
  }

  function NotRecentId(id: string): RecentItem -> bool {
    (r: RecentItem) => r.id != id
  }

  /** `addRecentItem`: the new entry first, then the older entries whose id differs, cut to 20. */
  function AddRecent(recent: seq<RecentItem>, kind: ItemType, id: string): seq<RecentItem> {
    Take([RecentItem(kind, id)] + Filter(recent, NotRecentId(id)), 20)
  }

  /**
   * The new entry is first and its id appears nowhere else; there are at most 20 entries; the
   * older entries keep their order, and none is lost unless the list is full. When it is full,
   * the older entries kept are the most recent ones: a prefix of the entries with another id.
   */
  lemma AddRecentShape(recent: seq<RecentItem>, kind: ItemType, id: string)
    ensures var r := AddRecent(recent, kind, id);
      && 1 <= |r| <= 20
      && r[0] == RecentItem(kind, id)
      && (forall i :: 1 <= i < |r| ==> r[i].id != id)
      && IsSubseq(r[1..], recent)
      && (|r| < 20 ==> forall x :: x in recent && x.id != id ==> x in r)
      && (var others := Filter(recent, NotRecentId(id));
          |r| == (if |others| < 19 then |others| + 1 else 20) && r[1..] == others[..|r| - 1])
  {
    AddRecentHead(recent, kind, id);
    var r := AddRecent(recent, kind, id);
    assert r[1..] == Filter(recent, NotRecentId(id))[..|r| - 1];
  }

  /** The head, the bound and the order of the older entries, without the trimming. */
  lemma AddRecentHead(recent: seq<RecentItem>, kind: ItemType, id: string)
    ensures var r := AddRecent(recent, kind, id);
      && 1 <= |r| <= 20
      && r[0] == RecentItem(kind, id)
      && (forall i :: 1 <= i < |r| ==> r[i].id != id)
      && IsSubseq(r[1..], recent)
      && (|r| < 20 ==> forall x :: x in recent && x.id != id ==> x in r)
  {
    var kept := Filter(recent, NotRecentId(id));
    var r := AddRecent(recent, kind, id);
    assert r[1..] == kept[..|r| - 1];
    PrefixIsSubseq(kept, |r| - 1);
    FilterIsSubseq(recent, NotRecentId(id));
    SubseqTrans(r[1..], kept, recent);
    forall i | 1 <= i < |r| ensures r[i].id != id {
      assert r[i] == kept[i - 1] && r[i] in kept;
    }
    assert |r| < 20 ==> r == [RecentItem(kind, id)] + kept;
  }

  /** The recent list never holds an id twice once it starts without repeats. */
  lemma AddRecentKeepsIdsUnique(recent: seq<RecentItem>, kind: ItemType, id: string)
    requires UniqueBy(recent, RecentId)
    ensures UniqueBy(AddRecent(recent, kind, id), RecentId)
  {
    var r := AddRecent(recent, kind, id);
    AddRecentHead(recent, kind, id);
    SubseqUniqueBy(r[1..], recent, RecentId);
    forall i, j | 0 <= i < j < |r| ensures RecentId(r[i]) != RecentId(r[j]) {
      if i > 0 {
        assert r[i] == r[1..][i - 1] && r[j] == r[1..][j - 1];
      }
    }
  }

  /** Opening the same item twice in a row leaves one entry for it, at the head. */
  lemma AddRecentTwice(recent: seq<RecentItem>, kind: ItemType, id: string)
    ensures AddRecent(AddRecent(recent, kind, id), kind, id) == AddRecent(recent, kind, id)
  {
    var r := AddRecent(recent, kind, id);
    AddRecentHead(recent, kind, id);
    var kept := Filter(r, NotRecentId(id));
    assert r == [r[0]] + r[1..];
    assert Filter([r[0]], NotRecentId(id)) == [];
    FilterAppend([r[0]], r[1..], NotRecentId(id));
    FilterKeepsAll(r[1..], NotRecentId(id));
    assert kept == r[1..];
    assert [RecentItem(kind, id)] + kept == r;
  }

  // ---------------------------------------------------------------- toggles and playlists

  /** `toggleLikeSong` / `togglePinItem`: `x` switches membership and nothing else does. */
  function Toggle(s: set<string>, x: string): (r: set<string>)
    ensures x in r <==> x !in s
    ensures r - {x} == s - {x}
  {
    if x in s then s - {x} else s + {x}
  }

  lemma ToggleTwice(s: set<string>, x: string)
    ensures Toggle(Toggle(s, x), x) == s
  {
  }

  /** `toggleRepeat`: none, then all, then one, then none again. */
  function NextRepeat(m: RepeatMode): (r: RepeatMode)
    ensures r != m
  {
    match m
    case RepeatNone => RepeatAll
    case RepeatAll => RepeatOne
    case RepeatOne => RepeatNone
  }

  /** Three presses of the repeat button come back to the same mode, and every mode is visited. */
  lemma RepeatCycle(m: RepeatMode)
    ensures NextRepeat(NextRepeat(NextRepeat(m))) == m
    ensures {m, NextRepeat(m), NextRepeat(NextRepeat(m))} == {RepeatNone, RepeatAll, RepeatOne}
  {
  }

  function AddIfMissing(pid: string, sid: string): Playlist -> Playlist {
    (p: Playlist) => if p.id == pid && sid !in p.songs then p.(songs := p.songs + [sid]) else p
  }

  /**
   * `addSongToPlaylist`: every playlist with the id ends up holding the song, appended at the end
   * when it was missing and untouched when it was there; the other playlists do not change.
   */
  function AddToPlaylist(playlists: seq<Playlist>, pid: string, sid: string): (r: seq<Playlist>)
    ensures |r| == |playlists|
    ensures forall i :: 0 <= i < |r| && playlists[i].id != pid ==> r[i] == playlists[i]
    ensures forall i :: 0 <= i < |r| && playlists[i].id == pid ==>
      r[i].id == pid && r[i].name == playlists[i].name && sid in r[i].songs
    ensures forall i :: 0 <= i < |r| && sid in playlists[i].songs ==> r[i] == playlists[i]
    ensures forall i :: 0 <= i < |r| && playlists[i].id == pid && sid !in playlists[i].songs ==>
      r[i].songs == playlists[i].songs + [sid]
  {
    Map(playlists, AddIfMissing(pid, sid))
  }

  /** Adding the same song twice changes nothing the second time. */
  lemma AddToPlaylistIdempotent(playlists: seq<Playlist>, pid: string, sid: string)
    ensures AddToPlaylist(AddToPlaylist(playlists, pid, sid), pid, sid) == AddToPlaylist(playlists, pid, sid)
  {
  }

  /** A playlist without repeated songs keeps none after an add. */
  lemma AddToPlaylistNoRepeats(playlists: seq<Playlist>, pid: string, sid: string, i: nat)
    requires i < |playlists| && UniqueBy(playlists[i].songs, (x: string) => x)
    ensures UniqueBy(AddToPlaylist(playlists, pid, sid)[i].songs, (x: string) => x)
  {
  }

  /** The id `createPlaylist` gives a playlist made at time `now`. */
  function NewPlaylistId(now: nat): (r: string)
    ensures |r| > 9 && r[..9] == "playlist-" && AllDigits(r[9..])
  {
    var d := NatToString(now);
    assert ("playlist-" + d)[9..] == d;
    "playlist-" + d
  }

  // ---------------------------------------------------------------- lyrics

  /** What `playSong` does about lyrics once the cache lookup and the fetch are known. */
  datatype LyricsStep = KeepSong | ApplyLyrics(data: LyricsData, store: bool)

  /** The record applied when the lookup finds nothing: no text, not explicit. */
  const NoLyrics := LyricsData(None, None, false)

  /**
   * A song whose explicit flag is known is left alone; otherwise a cached record is applied, else a
   * fetched one is applied and stored, else the empty record is applied and NOT stored. The
   * updated song (current song and library entries) then carries a known flag, but any other copy
   * of it, such as a queue entry, is looked up again when it is played.
   */
  function LyricsDecision(song: Song, cached: Option<LyricsData>, fetched: Option<LyricsData>): (r: LyricsStep)
    ensures r.KeepSong? <==> song.isExplicit.Some?
    ensures r.ApplyLyrics? && r.store <==> song.isExplicit.None? && cached.None? && fetched.Some?
    ensures r.ApplyLyrics? && r.store ==> r.data == fetched.value
    ensures r.ApplyLyrics? && cached.Some? ==> r.data == cached.value
    ensures r.ApplyLyrics? && cached.None? && fetched.None? ==> r.data == NoLyrics
  {
    if song.isExplicit.Some? then KeepSong
    else if cached.Some? then ApplyLyrics(cached.value, false)
    else if fetched.Some? then ApplyLyrics(fetched.value, true)
    else ApplyLyrics(NoLyrics, false)
  }

  /** `updateSongWithLyrics`: the song with the record's texts and its explicit flag set. */
  function WithLyrics(song: Song, data: LyricsData): (r: Song)
    ensures r.isExplicit == Some(data.isExplicit)
    ensures r.lyrics == data.plainLyrics && r.syncedLyrics == data.syncedLyrics
    ensures r.(lyrics := song.lyrics, syncedLyrics := song.syncedLyrics, isExplicit := song.isExplicit) == song
  {
    song.(lyrics := data.plainLyrics, syncedLyrics := data.syncedLyrics, isExplicit := Some(data.isExplicit))
  }

  /** Once lyrics are applied the song is settled: playing it again neither reads the cache nor fetches. */
  lemma LyricsSettle(song: Song, data: LyricsData, cached: Option<LyricsData>, fetched: Option<LyricsData>)
    ensures LyricsDecision(WithLyrics(song, data), cached, fetched) == KeepSong
  {
  }

  /** A failed lookup is never written to the cache. */
  lemma NegativeResultNotCached(song: Song, cached: Option<LyricsData>)
    ensures !LyricsDecision(song, cached, None).ApplyLyrics? || !LyricsDecision(song, cached, None).store
  {
  }

  /** `x || null` on optional text: the empty string counts as absent. */
  function LyricsText(s: Option<string>): (r: Option<string>)
    ensures r.Some? <==> Truthy(s)
    ensures r.Some? ==> r == s
  {
    if Truthy(s) then s else None
  }

  /**
   * `prev.map(s => s.id === song.id ? updatedSong : s)`: every entry with the updated song's id is
   * replaced by it, the others stay where they are.
   */
  function ReplaceSong(songs: seq<Song>, updated: Song): (r: seq<Song>)
    ensures |r| == |songs|
    ensures forall i :: 0 <= i < |r| ==> r[i] == if songs[i].id == updated.id then updated else songs[i]
  {
    if songs == [] then [] else [if songs[0].id == updated.id then updated else songs[0]] + ReplaceSong(songs[1..], updated)
  }

  // ---------------------------------------------------------------- queue helpers

  function HasSongId(id: string): Song -> bool {
    (s: Song) => s.id == id
  }

  function NotSongId(id: string): Song -> bool {
    (s: Song) => s.id != id
  }

  /** What the engine tells the audio element on play/pause. */
  datatype AudioCommand = PauseAudio | ResumeAudio | NoAudio

  /** The background tagger's search: the first library song never analysed, when AI is on. */
  function NextUntagged(songs: seq<Song>, aiEnabled: bool): (r: Option<Song>)
    ensures r.Some? ==> aiEnabled && r.value in songs && r.value.tags.None?
    ensures aiEnabled && (exists s :: s in songs && s.tags.None?) ==> r.Some?
    ensures r.Some? ==> exists j :: 0 <= j < |songs| && songs[j] == r.value && forall k :: 0 <= k < j ==> songs[k].tags.Some?
  {
    if !aiEnabled then None
    else Find(songs, (s: Song) => s.tags.None?)
  }

  /** The artist memo may be left sorted by a previous smart-playlist build; the spotlight does not change. */
  lemma SpotlightIgnoresPriorSort(artists: seq<Artist>, draws: seq<nat>)
    ensures ArtistSpotlight(SortByKey(artists, ArtistMostPlayedFirst), draws) == ArtistSpotlight(artists, draws)
  {
    SortOfSorted(SortByKey(artists, ArtistMostPlayedFirst), ArtistMostPlayedFirst);
  }

  // ---------------------------------------------------------------- the engine's state as a value

  /**
   * The library part of the provider: the songs read from files, the three play histories, and
   * whether the `artists` memo has been sorted in place since it was last derived.
   */
  datatype Library = Library(
    rawSongs: seq<Song>,
    songHistory: map<string, History>,
    albumHistory: map<string, History>,
    artistHistory: map<string, History>,
    artistsSorted: bool)

  /** The queue the player walks, the queue it was made from, the last shuffle, and the two modes. */
  datatype QueueState = QueueState(
    playQueue: seq<Song>,
    shuffledQueue: seq<Song>,
    originalQueue: seq<Song>,
    isShuffle: bool,
    repeatMode: RepeatMode)

  /** The current song, whether it plays, and what the lyric panel shows. */
  datatype Player = Player(
    currentSong: Option<Song>,
    isPlaying: bool,
    unsyncedLyrics: Option<string>,
    syncedLyrics: Option<seq<SyncedLyricLine>>,
    loadingLyrics: bool)

  /** What the user has made: likes, pins, the recent items, playlists and the AI switch. */
  datatype UserData = UserData(
    likedSongs: set<string>,
    pinnedItems: set<string>,
    recentItems: seq<RecentItem>,
    playlists: seq<Playlist>,
    isAIEnabled: bool)

  /** Everything the provider holds at one moment, with the lyrics cache's storage entry. */
  datatype EngineState = EngineState(lib: Library, queues: QueueState, player: Player, user: UserData, lyricsBlob: StoredBlob)

  /** A fresh provider over the cache entry `blob`: empty library and histories, nothing playing, AI on. */
  function Initial(blob: StoredBlob): EngineState {
    EngineState(Library([], map[], map[], map[], false), QueueState([], [], [], false, RepeatNone),
                Player(None, false, None, None, false), UserData({}, {}, [], [], true), blob)
  }

  /** The `songs` memo: the raw songs with their history merged in. */
  function SongsOf(e: EngineState): seq<Song> {
    MergedSongs(e.lib.rawSongs, e.lib.songHistory)
  }

  /** The `albums` memo. */
  function AlbumsIn(e: EngineState): seq<Album> {
    AlbumsOf(SongsOf(e), e.lib.albumHistory)
  }

  /** The `artists` memo: derived in library order, or sorted by plays when a smart-playlist build has sorted it since. */
  function ArtistsIn(e: EngineState): seq<Artist> {
    var derived := ArtistsOf(SongsOf(e), AlbumsIn(e), e.lib.artistHistory);
    if e.lib.artistsSorted then SortByKey(derived, ArtistMostPlayedFirst) else derived
  }

  /** `getItemById` on a state. */
  function GetItemById(e: EngineState, kind: ItemType, id: string): Option<LibraryItem> {
    ItemById(kind, id, SongsOf(e), AlbumsIn(e), ArtistsIn(e), e.user.playlists, e.user.likedSongs)
  }

  /** Without shuffle the queue played is the original queue; with shuffle it is a reordering of it. */
  ghost predicate QueueValid(q: QueueState) {
    && (!q.isShuffle ==> q.playQueue == q.originalQueue)
    && (q.isShuffle ==> multiset(q.playQueue) == multiset(q.originalQueue))
  }

  /** `findNextSongIndex`: where the current song first occurs in the queue, or -1. */
  function CurrentIndex(e: EngineState): (r: int)
    ensures -1 <= r < |e.queues.playQueue|
  {
    if e.player.currentSong.None? then -1 else FindIndex(e.queues.playQueue, HasSongId(e.player.currentSong.value.id))
  }

  /** The index is the first queue entry carrying the current song's id; -1 when there is none. */
  lemma CurrentIndexFirst(e: EngineState)
    ensures var r := CurrentIndex(e); var q := e.queues.playQueue; var c := e.player.currentSong;
      && (r >= 0 ==> c.Some? && q[r].id == c.value.id)
      && (r >= 0 ==> forall j :: 0 <= j < r ==> q[j].id != c.value.id)
      && (r == -1 ==> c.None? || forall j :: 0 <= j < |q| ==> q[j].id != c.value.id)
  {
  }

  /** In a queue without repeated ids, the entry at `k` is found at `k`. */
  lemma FindUniqueId(q: seq<Song>, k: nat)
    requires k < |q| && UniqueBy(q, SongId)
    ensures FindIndex(q, HasSongId(q[k].id)) == k
  {
    assert HasSongId(q[k].id)(q[k]);
  }

  // ---------------------------------------------------------------- the engine's operations on states

  /** `loadFiles`' last step: the songs read from the chosen files are appended to the library. */
  function SongsAdded(e: EngineState, newSongs: seq<Song>): EngineState {
    e.(lib := e.lib.(rawSongs := e.lib.rawSongs + newSongs, artistsSorted := false))
  }

  function TagWith(songId: string, t: SongTags): Song -> Song {
    (s: Song) => if s.id == songId then s.(tags := Some(t)) else s
  }

  /** The background tagger's write: the song's tags, or an empty tag record when analysis failed. */
  function TagsApplied(e: EngineState, songId: string, tags: Option<SongTags>): EngineState {
    var t := tags.GetOr(SongTags(None, None, None));
    e.(lib := e.lib.(rawSongs := Map(e.lib.rawSongs, TagWith(songId, t)), artistsSorted := false))
  }

  /** Every entry with the id gets the tags (the empty record on failure); every other entry stays. */
  lemma TagsAppliedAt(e: EngineState, songId: string, tags: Option<SongTags>)
    ensures var before := e.lib.rawSongs; var after := TagsApplied(e, songId, tags).lib.rawSongs;
      && |after| == |before|
      && (forall i :: 0 <= i < |after| && before[i].id != songId ==> after[i] == before[i])
      && (forall i :: 0 <= i < |after| && before[i].id == songId ==>
            after[i].tags.Some? && after[i].(tags := before[i].tags) == before[i])
      && (tags.None? ==> forall i :: 0 <= i < |after| && before[i].id == songId ==>
            after[i].tags == Some(SongTags(None, None, None)))
  {
  }

  /** The plays of `key` a history records; a key never played has none. */
  function PlaysOf(h: map<string, History>, key: string): int {
    if key in h then h[key].playCount else 0
  }

  /** `playSong`'s three counters: the song's, its album's and its artist's. */
  function Recorded(l: Library, song: Song, now: int): Library {
    l.(songHistory := Bumped(l.songHistory, song.id, now),
       albumHistory := Bumped(l.albumHistory, AlbumKey(song), now),
       artistHistory := Bumped(l.artistHistory, song.artist, now),
       artistsSorted := false)
  }

  /** `playSong`'s queue step: `newQueue` becomes the original queue, played shuffled when shuffle is on. */
  function Queued(q: QueueState, newQueue: seq<Song>, draws: seq<nat>): QueueState {
    if q.isShuffle then
      q.(originalQueue := newQueue, shuffledQueue := Shuffled(newQueue, draws), playQueue := Shuffled(newQueue, draws))
    else
      q.(originalQueue := newQueue, playQueue := newQueue)
  }

  /**
   * The part of `playSong` that does not wait for anything: the audio may start, the counters go
   * up, the queue becomes `queue` (the library when `queue` is empty) and the album becomes recent.
   */
  function Started(e: EngineState, song: Song, queue: seq<Song>, library: seq<Song>, now: int, audioStarts: bool, draws: seq<nat>): EngineState {
    var newQueue := if |queue| > 0 then queue else library;
    EngineState(Recorded(e.lib, song, now), Queued(e.queues, newQueue, draws),
                e.player.(isPlaying := e.player.isPlaying || audioStarts),
                e.user.(recentItems := AddRecent(e.user.recentItems, ItemAlbum, AlbumKey(song))), e.lyricsBlob)
  }

  /** The song becomes current and the lyric panel shows its texts. */
  function SongShown(p: Player, song: Song): Player {
    p.(currentSong := Some(song), unsyncedLyrics := LyricsText(song.lyrics), syncedLyrics := song.syncedLyrics, loadingLyrics := false)
  }

  /**
   * The lyrics part of `playSong`: a song whose explicit flag is known is shown as it is; otherwise
   * the cached record, else the fetched one (which is then cached), else the empty record is
   * applied to the song in the library and the updated song is shown.
   */
  function LyricsShown(e: EngineState, song: Song, fetched: Option<LyricsData>, writeSucceeds: bool): EngineState {
    match LyricsDecision(song, Lookup(e.lyricsBlob, song.id), fetched)
    case KeepSong => e.(player := SongShown(e.player, song))
    case ApplyLyrics(data, store) =>
      var shown := WithLyrics(song, data);
      EngineState(e.lib.(rawSongs := ReplaceSong(e.lib.rawSongs, shown), artistsSorted := false),
                  e.queues, SongShown(e.player, shown), e.user,
                  if store then Store(e.lyricsBlob, song.id, data, writeSucceeds) else e.lyricsBlob)
  }

  /** The whole effect of `playSong(song, queue)`. */
  function Played(e: EngineState, song: Song, queue: seq<Song>, now: int, audioStarts: bool, draws: seq<nat>,
                  fetched: Option<LyricsData>, writeSucceeds: bool): EngineState {
    LyricsShown(Started(e, song, queue, SongsOf(e), now, audioStarts, draws), song, fetched, writeSucceeds)
  }

  /**
   * `playNext`: nothing when the current song is not in the queue; the next entry when there is
   * one; at the end, the first entry under repeat-all and a stop otherwise (repeat-one included).
   * The next entry is played with the original queue, which is reshuffled when shuffle is on.
   */
  function Advanced(e: EngineState, now: int, audioStarts: bool, draws: seq<nat>,
                    fetched: Option<LyricsData>, writeSucceeds: bool): EngineState {
    var n := NextIndex(e);
    if CurrentIndex(e) == -1 then e
    else if n == -1 then e.(player := e.player.(isPlaying := false))
    else Played(e, e.queues.playQueue[n], e.queues.originalQueue, now, audioStarts, draws, fetched, writeSucceeds)
  }

  /** The entry `playNext` plays: the one after the current song, else the first under repeat-all, else none (-1). */
  function NextIndex(e: EngineState): (r: int)
    ensures -1 <= r < |e.queues.playQueue|
  {
    var i := CurrentIndex(e);
    if i == -1 then -1
    else if i + 1 < |e.queues.playQueue| then i + 1
    else if e.queues.repeatMode == RepeatAll then 0
    else -1
  }

  /** The entry `playPrev` plays: the one before the current song, else the last under repeat-all, else none (-1). */
  function PrevIndex(e: EngineState): (r: int)
    ensures -1 <= r < |e.queues.playQueue|
  {
    var i := CurrentIndex(e);
    if i == -1 then -1
    else if i > 0 then i - 1
    else if e.queues.repeatMode == RepeatAll then |e.queues.playQueue| - 1
    else -1
  }

  /**
   * `playPrev` at playback position `position` (seconds): past three seconds it only rewinds;
   * otherwise the previous entry, wrapping to the last under repeat-all, else nothing.
   */
  function Previous(e: EngineState, position: real, now: int, audioStarts: bool, draws: seq<nat>,
                    fetched: Option<LyricsData>, writeSucceeds: bool): EngineState {
    var n := PrevIndex(e);
    if n == -1 || position > 3.0 then e
    else Played(e, e.queues.playQueue[n], e.queues.originalQueue, now, audioStarts, draws, fetched, writeSucceeds)
  }

  /** `handleSongEnd`: repeat-one restarts the song in place, anything else plays next. */
  function SongEnded(e: EngineState, now: int, audioStarts: bool, draws: seq<nat>,
                     fetched: Option<LyricsData>, writeSucceeds: bool): EngineState {
    if e.queues.repeatMode == RepeatOne then e else Advanced(e, now, audioStarts, draws, fetched, writeSucceeds)
  }

  /** `toggleShuffle`: on reshuffles the original queue, off goes back to it. */
  function ShuffleToggled(q: QueueState, draws: seq<nat>): QueueState {
    if !q.isShuffle then
      q.(isShuffle := true, shuffledQueue := Shuffled(q.originalQueue, draws), playQueue := Shuffled(q.originalQueue, draws))
    else
      q.(isShuffle := false, playQueue := q.originalQueue)
  }

  /** `updateQueue`: the new queue becomes both the played and the original queue. */
  function QueueUpdated(q: QueueState, newQueue: seq<Song>): QueueState {
    q.(playQueue := newQueue, originalQueue := newQueue, shuffledQueue := if q.isShuffle then newQueue else q.shuffledQueue)
  }

  /** `removeSongFromQueue`: the current song stays; any other id leaves the played queue. */
  function SongRemoved(e: EngineState, songId: string): EngineState {
    if e.player.currentSong.Some? && e.player.currentSong.value.id == songId then e
    else e.(queues := QueueUpdated(e.queues, Filter(e.queues.playQueue, NotSongId(songId))))
  }

  /** `createPlaylist` at time `now`: a new empty playlist at the end. */
  function PlaylistCreated(u: UserData, name: string, now: nat): UserData {
    u.(playlists := u.playlists + [Playlist(NewPlaylistId(now), name, [])])
  }

  /** The state after `getSmartPlaylists`: a build that reaches the Artist Spotlight sorts the artists memo in place. */
  function SmartBuilt(e: EngineState): EngineState {
    if SongsOf(e) != [] && e.user.isAIEnabled then e.(lib := e.lib.(artistsSorted := true)) else e
  }

  // ---------------------------------------------------------------- persistence

  /** What the load effect finds in storage, each entry parsed, or absent when the key is missing. */
  datatype SavedState = SavedState(
    playlists: Option<seq<Playlist>>,
    likedSongs: Option<set<string>>,
    pinnedItems: Option<set<string>>,
    recentItems: Option<seq<RecentItem>>,
    songHistory: Option<map<string, History>>,
    albumHistory: Option<map<string, History>>,
    artistHistory: Option<map<string, History>>,
    isAIEnabled: Option<bool>)

  /** The save effects: every persisted variable is written under its key. */
  function SavedOf(e: EngineState): SavedState {
    SavedState(Some(e.user.playlists), Some(e.user.likedSongs), Some(e.user.pinnedItems), Some(e.user.recentItems),
               Some(e.lib.songHistory), Some(e.lib.albumHistory), Some(e.lib.artistHistory), Some(e.user.isAIEnabled))
  }

  /** The load effect on the user's data: each entry found replaces the variable's initial value. */
  function RestoredUser(u: UserData, s: SavedState): UserData {
    UserData(s.likedSongs.GetOr(u.likedSongs), s.pinnedItems.GetOr(u.pinnedItems),
             s.recentItems.GetOr(u.recentItems), s.playlists.GetOr(u.playlists), s.isAIEnabled.GetOr(u.isAIEnabled))
  }

  /**
   * The load effect on the histories. Replacing a history the artist memo depends on rebuilds the
   * memo, so a sort left on the old one is gone.
   */
  function RestoredLib(l: Library, s: SavedState): Library {
    l.(songHistory := s.songHistory.GetOr(l.songHistory),
       albumHistory := s.albumHistory.GetOr(l.albumHistory),
       artistHistory := s.artistHistory.GetOr(l.artistHistory),
       artistsSorted := if s.songHistory.Some? || s.albumHistory.Some? || s.artistHistory.Some? then false
                        else l.artistsSorted)
  }

  /** The load effect. */
  function Restored(e: EngineState, s: SavedState): EngineState {
    e.(user := RestoredUser(e.user, s), lib := RestoredLib(e.lib, s))
  }

  /**
   * A new session restores what the last one saved: playlists, likes, pins, recent items, the
   * three histories and the AI switch; the library, the queue and the player start afresh.
   */
  lemma RestoreAfterSave(e: EngineState, blob: StoredBlob)
    ensures var r := Restored(Initial(blob), SavedOf(e));
      && r.user == e.user
      && r.lib == e.lib.(rawSongs := [], artistsSorted := false)
      && r.queues == Initial(blob).queues && r.player == Initial(blob).player && r.lyricsBlob == blob
  {
  }

  // ---------------------------------------------------------------- what the operations guarantee

  /**
   * After `playSong` the counters of the song, its album and its artist are one higher and stamped
   * `now`, other songs' counters stay, the album heads the recent items, the player is playing when
   * it was or the audio started, and likes, pins, playlists, the switches and the modes are untouched.
   */
  lemma PlayedCounts(e: EngineState, song: Song, queue: seq<Song>, now: int, audioStarts: bool, draws: seq<nat>,
                     fetched: Option<LyricsData>, writeSucceeds: bool)
    ensures var r := Played(e, song, queue, now, audioStarts, draws, fetched, writeSucceeds);
      && song.id in r.lib.songHistory && AlbumKey(song) in r.lib.albumHistory && song.artist in r.lib.artistHistory
      && r.lib.songHistory[song.id] == History(PlaysOf(e.lib.songHistory, song.id) + 1, Some(now))
      && r.lib.albumHistory[AlbumKey(song)] == History(PlaysOf(e.lib.albumHistory, AlbumKey(song)) + 1, Some(now))
      && r.lib.artistHistory[song.artist] == History(PlaysOf(e.lib.artistHistory, song.artist) + 1, Some(now))
      && (forall k :: k in e.lib.songHistory && k != song.id ==> k in r.lib.songHistory && r.lib.songHistory[k] == e.lib.songHistory[k])
      && 1 <= |r.user.recentItems| <= 20 && r.user.recentItems[0] == RecentItem(ItemAlbum, AlbumKey(song))
      && r.user == e.user.(recentItems := r.user.recentItems)
      && r.player.isPlaying == (e.player.isPlaying || audioStarts)
      && r.queues.isShuffle == e.queues.isShuffle && r.queues.repeatMode == e.queues.repeatMode
      && !r.lib.artistsSorted
  {
    var s := Started(e, song, queue, SongsOf(e), now, audioStarts, draws);
    assert s.lib.songHistory == Bumped(e.lib.songHistory, song.id, now);
    BumpedCounts(e.lib.songHistory, song.id, now);
    BumpedCounts(e.lib.albumHistory, AlbumKey(song), now);
    BumpedCounts(e.lib.artistHistory, song.artist, now);
    AddRecentShape(e.user.recentItems, ItemAlbum, AlbumKey(song));
  }

  /**
   * After `playSong` the original queue is `queue`, or the whole library when `queue` is empty;
   * the queue played is that queue, or a shuffle of it when shuffle is on; so the queue invariant
   * holds whatever it was before.
   */
  lemma PlayedQueue(e: EngineState, song: Song, queue: seq<Song>, now: int, audioStarts: bool, draws: seq<nat>,
                    fetched: Option<LyricsData>, writeSucceeds: bool)
    ensures var r := Played(e, song, queue, now, audioStarts, draws, fetched, writeSucceeds).queues;
      && r.originalQueue == (if |queue| > 0 then queue else SongsOf(e))
      && (e.queues.isShuffle ==> r.playQueue == Shuffled(r.originalQueue, draws) && r.shuffledQueue == r.playQueue)
      && (!e.queues.isShuffle ==> r.playQueue == r.originalQueue && r.shuffledQueue == e.queues.shuffledQueue)
      && QueueValid(r)
  {
  }

  /**
   * After `playSong` the current song is `song` with its explicit flag settled: unchanged when it
   * was known, else with the cached record, else with the fetched one, which is then read back from
   * the cache when the write succeeded, else with the empty record. Library entries with its id
   * carry the same texts, the panel shows them, and a failed lookup leaves the cache alone.
   */
  lemma PlayedLyrics(e: EngineState, song: Song, queue: seq<Song>, now: int, audioStarts: bool, draws: seq<nat>,
                     fetched: Option<LyricsData>, writeSucceeds: bool)
    ensures var r := Played(e, song, queue, now, audioStarts, draws, fetched, writeSucceeds);
      var cached := Lookup(e.lyricsBlob, song.id);
      var c := r.player.currentSong;
      && c.Some? && c.value.id == song.id && c.value.isExplicit.Some?
      && (song.isExplicit.Some? ==> c == Some(song) && r.lib.rawSongs == e.lib.rawSongs && r.lyricsBlob == e.lyricsBlob)
      && (song.isExplicit.None? && cached.Some? ==> c == Some(WithLyrics(song, cached.value)) && r.lyricsBlob == e.lyricsBlob)
      && (song.isExplicit.None? && cached.None? && fetched.Some? ==> c == Some(WithLyrics(song, fetched.value)))
      && (song.isExplicit.None? && cached.None? && fetched.Some? && writeSucceeds ==> Lookup(r.lyricsBlob, song.id) == fetched)
      && (song.isExplicit.None? && cached.None? && fetched.None? ==> c == Some(WithLyrics(song, NoLyrics)))
      && (fetched.None? ==> r.lyricsBlob == e.lyricsBlob)
      && |r.lib.rawSongs| == |e.lib.rawSongs|
      && (forall i :: 0 <= i < |r.lib.rawSongs| ==>
            r.lib.rawSongs[i] == if e.lib.rawSongs[i].id == song.id && song.isExplicit.None? then c.value else e.lib.rawSongs[i])
      && r.player.unsyncedLyrics == LyricsText(c.value.lyrics)
      && r.player.syncedLyrics == c.value.syncedLyrics
      && !r.player.loadingLyrics
  {
    var s := Started(e, song, queue, SongsOf(e), now, audioStarts, draws);
    assert s.lyricsBlob == e.lyricsBlob && s.lib.rawSongs == e.lib.rawSongs;
    if song.isExplicit.None? && Lookup(e.lyricsBlob, song.id).None? && fetched.Some? && writeSucceeds {
      ReadAfterWrite(e.lyricsBlob, song.id, fetched.value);
    }
  }

  /**
   * Playing the updated current song again never looks its lyrics up again: its explicit flag is
   * settled. This is about that updated copy only; see `QueuedCopyLooksUpAgain`.
   */
  lemma ReplayKeepsLyrics(e: EngineState, song: Song, queue: seq<Song>, now: int, audioStarts: bool, draws: seq<nat>,
                          fetched: Option<LyricsData>, writeSucceeds: bool,
                          queue2: seq<Song>, now2: int, audioStarts2: bool, draws2: seq<nat>, fetched2: Option<LyricsData>, ws2: bool)
    ensures var r := Played(e, song, queue, now, audioStarts, draws, fetched, writeSucceeds);
      var r2 := Played(r, r.player.currentSong.value, queue2, now2, audioStarts2, draws2, fetched2, ws2);
      && r2.lyricsBlob == r.lyricsBlob && r2.lib.rawSongs == r.lib.rawSongs && r2.player.currentSong == r.player.currentSong
  {
    PlayedLyrics(e, song, queue, now, audioStarts, draws, fetched, writeSucceeds);
    var r := Played(e, song, queue, now, audioStarts, draws, fetched, writeSucceeds);
    PlayedLyrics(r, r.player.currentSong.value, queue2, now2, audioStarts2, draws2, fetched2, ws2);
  }

  /**
   * `updateSongWithLyrics` replaces the song in the library and as the current song, not in the
   * queues. So after a lookup that found nothing, and therefore stored nothing, the queued copy
   * still has its explicit flag unknown while the current song's is known, and playing the queued
   * copy again (as `playNext`, `playPrev` and the queue panel do) starts a new lookup: a fetch,
   * since the cache still misses.
   */
  lemma QueuedCopyLooksUpAgain(e: EngineState, song: Song, now: int, audioStarts: bool, draws: seq<nat>,
                               writeSucceeds: bool, fetched2: Option<LyricsData>)
    requires song.isExplicit.None? && Lookup(e.lyricsBlob, song.id).None?
    ensures var r := Played(e, song, [song], now, audioStarts, draws, None, writeSucceeds);
      && r.queues.playQueue == [song]
      && r.player.currentSong.value.isExplicit.Some?
      && Lookup(r.lyricsBlob, song.id).None?
      && LyricsDecision(r.queues.playQueue[0], Lookup(r.lyricsBlob, song.id), fetched2)
           == if fetched2.Some? then ApplyLyrics(fetched2.value, true) else ApplyLyrics(NoLyrics, false)
  {
    var r := Played(e, song, [song], now, audioStarts, draws, None, writeSucceeds);
    PlayedLyrics(e, song, [song], now, audioStarts, draws, None, writeSucceeds);
    var q := r.queues.playQueue;
    assert q == [song] || q == Shuffled([song], draws);
    assert |q| == 1 && multiset(q) == multiset{song} ==> q == [song] by {
      if |q| == 1 && multiset(q) == multiset{song} {
        assert q[0] in multiset(q);
      }
    }
  }

  /** `playNext` and `handleSongEnd` keep the queue invariant. */
  lemma AdvancedQueueValid(e: EngineState, now: int, audioStarts: bool, draws: seq<nat>,
                           fetched: Option<LyricsData>, writeSucceeds: bool)
    requires QueueValid(e.queues)
    ensures QueueValid(Advanced(e, now, audioStarts, draws, fetched, writeSucceeds).queues)
    ensures QueueValid(SongEnded(e, now, audioStarts, draws, fetched, writeSucceeds).queues)
  {
    var a := Advanced(e, now, audioStarts, draws, fetched, writeSucceeds);
    AdvanceKeepsQueue(e, now, audioStarts, draws, fetched, writeSucceeds);
    assert SongEnded(e, now, audioStarts, draws, fetched, writeSucceeds) == if e.queues.repeatMode == RepeatOne then e else a;
  }

  /** Moving to the next song keeps the queue valid. */
  lemma AdvanceKeepsQueue(e: EngineState, now: int, audioStarts: bool, draws: seq<nat>,
                          fetched: Option<LyricsData>, writeSucceeds: bool)
    requires QueueValid(e.queues)
    ensures QueueValid(Advanced(e, now, audioStarts, draws, fetched, writeSucceeds).queues)
  {
    var n := NextIndex(e);
    if CurrentIndex(e) == -1 {
      assert Advanced(e, now, audioStarts, draws, fetched, writeSucceeds) == e;
    } else if n == -1 {
      assert Advanced(e, now, audioStarts, draws, fetched, writeSucceeds).queues == e.queues;
    } else {
      PlayedQueue(e, e.queues.playQueue[n], e.queues.originalQueue, now, audioStarts, draws, fetched, writeSucceeds);
    }
  }

  /** `playPrev` keeps the queue invariant. */
  lemma PreviousQueueValid(e: EngineState, position: real, now: int, audioStarts: bool, draws: seq<nat>,
                           fetched: Option<LyricsData>, writeSucceeds: bool)
    requires QueueValid(e.queues)
    ensures QueueValid(Previous(e, position, now, audioStarts, draws, fetched, writeSucceeds).queues)
  {
    var n := PrevIndex(e);
    if n != -1 && position <= 3.0 {
      PlayedQueue(e, e.queues.playQueue[n], e.queues.originalQueue, now, audioStarts, draws, fetched, writeSucceeds);
    }
  }

  /**
   * Without shuffle, in a queue without repeated ids, `playNext` moves the current position one
   * forward when there is a next entry.
   */
  lemma AdvanceMovesToNext(e: EngineState, now: int, audioStarts: bool, draws: seq<nat>,
                           fetched: Option<LyricsData>, writeSucceeds: bool)
    requires QueueValid(e.queues) && !e.queues.isShuffle && UniqueBy(e.queues.playQueue, SongId)
    requires CurrentIndex(e) != -1 && CurrentIndex(e) + 1 < |e.queues.playQueue|
    ensures CurrentIndex(Advanced(e, now, audioStarts, draws, fetched, writeSucceeds)) == CurrentIndex(e) + 1
  {
    var i := CurrentIndex(e);
    var q := e.queues.playQueue;
    PlayedQueue(e, q[i + 1], e.queues.originalQueue, now, audioStarts, draws, fetched, writeSucceeds);
    PlayedLyrics(e, q[i + 1], e.queues.originalQueue, now, audioStarts, draws, fetched, writeSucceeds);
    FindUniqueId(q, i + 1);
  }

  /** At the end of the queue `playNext` wraps to the first entry under repeat-all and stops under repeat-one or none. */
  lemma AdvanceAtEnd(e: EngineState, now: int, audioStarts: bool, draws: seq<nat>,
                     fetched: Option<LyricsData>, writeSucceeds: bool)
    requires CurrentIndex(e) != -1 && CurrentIndex(e) == |e.queues.playQueue| - 1
    ensures e.queues.repeatMode == RepeatAll ==>
      Advanced(e, now, audioStarts, draws, fetched, writeSucceeds)
        == Played(e, e.queues.playQueue[0], e.queues.originalQueue, now, audioStarts, draws, fetched, writeSucceeds)
    ensures e.queues.repeatMode != RepeatAll ==>
      Advanced(e, now, audioStarts, draws, fetched, writeSucceeds) == e.(player := e.player.(isPlaying := false))
  {
  }

  /** `toggleShuffle` always leaves the queue invariant holding, and keeps the original queue. */
  lemma ShuffleToggledValid(q: QueueState, draws: seq<nat>)
    ensures var r := ShuffleToggled(q, draws);
      && QueueValid(r) && r.isShuffle == !q.isShuffle && r.originalQueue == q.originalQueue && r.repeatMode == q.repeatMode
  {
  }

  /** Shuffle on then off plays the queue in its original order again; only the remembered shuffle differs. */
  lemma ShuffleTwiceRestores(q: QueueState, d1: seq<nat>, d2: seq<nat>)
    requires QueueValid(q) && !q.isShuffle
    ensures ShuffleToggled(ShuffleToggled(q, d1), d2).(shuffledQueue := q.shuffledQueue) == q
  {
  }

  /** `updateQueue` leaves the queue invariant holding. */
  lemma QueueUpdatedValid(q: QueueState, newQueue: seq<Song>)
    ensures var r := QueueUpdated(q, newQueue);
      && QueueValid(r) && r.playQueue == newQueue && r.originalQueue == newQueue
      && r.isShuffle == q.isShuffle && r.repeatMode == q.repeatMode
  {
  }

  /**
   * `removeSongFromQueue`: removing the current song changes nothing; removing another id takes
   * every entry with it out of the queue and keeps the rest in order, so the current song, when
   * queued, stays queued. The original queue becomes the queue played, shuffled or not.
   */
  lemma SongRemovedSpec(e: EngineState, songId: string)
    ensures var r := SongRemoved(e, songId); var c := e.player.currentSong;
      && (c.Some? && c.value.id == songId ==> r == e)
      && (!(c.Some? && c.value.id == songId) ==>
            && (forall s :: s in r.queues.playQueue <==> s in e.queues.playQueue && s.id != songId)
            && IsSubseq(r.queues.playQueue, e.queues.playQueue)
            && (forall s :: multiset(r.queues.playQueue)[s] == if s.id == songId then 0 else multiset(e.queues.playQueue)[s])
            && r.queues.originalQueue == r.queues.playQueue
            && r == e.(queues := r.queues)
            && QueueValid(r.queues))
      && (c.Some? && c.value in e.queues.playQueue ==> c.value in r.queues.playQueue)
      && (QueueValid(e.queues) ==> QueueValid(r.queues))
  {
    FilterIsSubseq(e.queues.playQueue, NotSongId(songId));
  }

  /**
   * A build that reaches the Artist Spotlight leaves the artists memo sorted by plays, most played
   * first; sorting it again at the next build gives the same order.
   */
  lemma SmartBuildSortsArtists(e: EngineState)
    ensures ArtistsIn(SmartBuilt(e))
         == if SongsOf(e) != [] && e.user.isAIEnabled then SortByKey(ArtistsIn(e), ArtistMostPlayedFirst) else ArtistsIn(e)
  {
    if SongsOf(e) != [] && e.user.isAIEnabled && e.lib.artistsSorted {
      SortOfSorted(ArtistsIn(e), ArtistMostPlayedFirst);
    }
  }

  // ---------------------------------------------------------------- the engine

  /**
   * The provider. Its twenty state variables are held in four records by concern; each method
   * states its whole effect as one of the operations above applied to the state before.
   */
  class MusicEngine {
    const lyricsStore: LyricsStore

    /** `rawSongs`, the three histories, and whether the `artists` memo is sorted in place. */
    var lib: Library
    /** `playQueue`, `shuffledQueue`, `originalQueue`, `isShuffle` and `repeatMode`. */
    var queues: QueueState
    /** `currentSong`, `isPlaying` and the lyric panel's `unsyncedLyrics`, `syncedLyrics`, `loadingLyrics`. */
    var player: Player
    /** `likedSongs`, `pinnedItems`, `recentItems`, `playlists` and `isAIEnabled`. */
    var user: UserData

    /** The engine's whole state, with the lyrics cache's storage entry. */
    function State(): EngineState
      reads this, lyricsStore
    {
      EngineState(lib, queues, player, user, lyricsStore.blob)
    }

    ghost predicate Valid()
      reads this`queues
    {
      QueueValid(queues)
    }

    /** A fresh provider: empty library and histories, nothing playing, AI on. */
    constructor (store: LyricsStore)
      ensures lyricsStore == store
      ensures State() == Initial(store.blob)
      ensures Valid()
    {
      lyricsStore := store;
      lib := Library([], map[], map[], map[], false);
      queues := QueueState([], [], [], false, RepeatNone);
      player := Player(None, false, None, None, false);
      user := UserData({}, {}, [], [], true);
    }

    /** The load effect: whatever storage holds replaces the initial values. */
    method LoadSaved(saved: SavedState)
      modifies this`user, this`lib
      ensures State() == Restored(old(State()), saved)
    {
      user := RestoredUser(user, saved);
      lib := RestoredLib(lib, saved);
    }

    /** `loadFiles`' final step. */
    method AddSongs(newSongs: seq<Song>)
      modifies this`lib
      ensures State() == SongsAdded(old(State()), newSongs)
    {
      lib := lib.(rawSongs := lib.rawSongs + newSongs, artistsSorted := false);
    }

    /** The background tagger's write. */
    method ApplyTags(songId: string, tags: Option<SongTags>)
      modifies this`lib
      ensures State() == TagsApplied(old(State()), songId, tags)
    {
      var t := tags.GetOr(SongTags(None, None, None));
      lib := lib.(rawSongs := Map(lib.rawSongs, TagWith(songId, t)), artistsSorted := false);
    }

    /** `addRecentItem`. */
    method AddRecentItem(kind: ItemType, id: string)
      modifies this`user
      ensures user == old(user).(recentItems := AddRecent(old(user).recentItems, kind, id))
    {
      user := user.(recentItems := AddRecent(user.recentItems, kind, id));
    }

    /** `playSong(song, queue)`, with the audio start, the draws, the lyrics fetch and the cache write as parameters. */
    method PlaySong(song: Song, queue: seq<Song>, now: int, audioStarts: bool, draws: seq<nat>,
                    fetched: Option<LyricsData>, writeSucceeds: bool)
      modifies this, lyricsStore
      ensures State() == Played(old(State()), song, queue, now, audioStarts, draws, fetched, writeSucceeds)
      ensures Valid()
    {
      StartSong(song, queue, SongsOf(State()), now, audioStarts, draws);
      LoadLyrics(song, fetched, writeSucceeds);
      PlayedQueue(old(State()), song, queue, now, audioStarts, draws, fetched, writeSucceeds);
    }

    /** The part of `playSong` before the lyrics lookup; `library` is the `songs` memo when it is called. */
    method StartSong(song: Song, queue: seq<Song>, library: seq<Song>, now: int, audioStarts: bool, draws: seq<nat>)
      modifies this`lib, this`queues, this`player, this`user
      ensures State() == Started(old(State()), song, queue, library, now, audioStarts, draws)
    {
      if audioStarts {
        player := player.(isPlaying := true);
      }
      lib := Recorded(lib, song, now);
      queues := Queued(queues, if |queue| > 0 then queue else library, draws);
      AddRecentItem(ItemAlbum, AlbumKey(song));
    }

    /** The lyrics half of `playSong`. */
    method LoadLyrics(song: Song, fetched: Option<LyricsData>, writeSucceeds: bool)
      modifies this`lib, this`player, lyricsStore
      ensures State() == LyricsShown(old(State()), song, fetched, writeSucceeds)
    {
      if song.isExplicit.Some? {
        player := SongShown(player, song);
        return;
      }
      var cached := lyricsStore.GetLyricsFromCache(song.id);
      var data := NoLyrics;
      if cached.Some? {
        data := cached.value;
      } else if fetched.Some? {
        lyricsStore.SetLyricsInCache(song.id, fetched.value, writeSucceeds);
        data := fetched.value;
      }
      var updated := WithLyrics(song, data);
      lib := lib.(rawSongs := ReplaceSong(lib.rawSongs, updated), artistsSorted := false);
      player := SongShown(player, updated);
    }

    /** `playNext`. */
    method PlayNext(now: int, audioStarts: bool, draws: seq<nat>, fetched: Option<LyricsData>, writeSucceeds: bool)
      modifies this, lyricsStore
      ensures State() == Advanced(old(State()), now, audioStarts, draws, fetched, writeSucceeds)
      ensures old(Valid()) ==> Valid()
    {
      var i := CurrentIndex(State());
      if i == -1 {
        return;
      }
      var next := i + 1;
      if next >= |queues.playQueue| {
        if queues.repeatMode == RepeatAll {
          next := 0;
        } else {
          player := player.(isPlaying := false);
          return;
        }
      }
      PlaySong(queues.playQueue[next], queues.originalQueue, now, audioStarts, draws, fetched, writeSucceeds);
    }

    /** `playPrev`: the result says whether it only rewound the song. */
    method PlayPrev(position: real, now: int, audioStarts: bool, draws: seq<nat>, fetched: Option<LyricsData>, writeSucceeds: bool)
      returns (rewound: bool)
      modifies this, lyricsStore
      ensures rewound <==> CurrentIndex(old(State())) != -1 && position > 3.0
      ensures State() == Previous(old(State()), position, now, audioStarts, draws, fetched, writeSucceeds)
      ensures old(Valid()) ==> Valid()
    {
      rewound := false;
      var i := CurrentIndex(State());
      if i == -1 {
        return;
      }
      if position > 3.0 {
        rewound := true;
        return;
      }
      var prev := i - 1;
      if prev < 0 {
        if queues.repeatMode == RepeatAll {
          prev := |queues.playQueue| - 1;
        } else {
          return;
        }
      }
      PlaySong(queues.playQueue[prev], queues.originalQueue, now, audioStarts, draws, fetched, writeSucceeds);
    }

    /**
     * `togglePlay`: the flag always flips, but the audio is only resumed when there is a song, so
     * with no song the state says playing while nothing plays.
     */
    method TogglePlay() returns (cmd: AudioCommand)
      modifies this`player
      ensures player == old(player).(isPlaying := !old(player).isPlaying)
      ensures cmd == PauseAudio <==> old(player).isPlaying
      ensures cmd == ResumeAudio <==> !old(player).isPlaying && player.currentSong.Some?
      ensures player.currentSong.None? && !old(player).isPlaying ==> player.isPlaying && cmd == NoAudio
    {
      if player.isPlaying {
        cmd := PauseAudio;
      } else if player.currentSong.Some? {
        cmd := ResumeAudio;
      } else {
        cmd := NoAudio;
      }
      player := player.(isPlaying := !player.isPlaying);
    }

    /** `toggleShuffle`. */
    method ToggleShuffle(draws: seq<nat>)
      modifies this`queues
      ensures queues == ShuffleToggled(old(queues), draws)
      ensures Valid()
    {
      var newState := !queues.isShuffle;
      if newState {
        var shuffled := Shuffled(queues.originalQueue, draws);
        queues := queues.(shuffledQueue := shuffled, playQueue := shuffled);
      } else {
        queues := queues.(playQueue := queues.originalQueue);
      }
      queues := queues.(isShuffle := newState);
    }

    /** `toggleRepeat`. */
    method ToggleRepeat()
      modifies this`queues
      ensures queues == old(queues).(repeatMode := NextRepeat(old(queues).repeatMode))
    {
      queues := queues.(repeatMode := NextRepeat(queues.repeatMode));
    }

    /** `handleSongEnd`: the result says whether the song was restarted in place (repeat-one). */
    method HandleSongEnd(now: int, audioStarts: bool, draws: seq<nat>, fetched: Option<LyricsData>, writeSucceeds: bool)
      returns (restarted: bool)
      modifies this, lyricsStore
      ensures restarted <==> old(queues).repeatMode == RepeatOne
      ensures State() == SongEnded(old(State()), now, audioStarts, draws, fetched, writeSucceeds)
      ensures old(Valid()) ==> Valid()
    {
      if queues.repeatMode == RepeatOne {
        restarted := true;
      } else {
        restarted := false;
        PlayNext(now, audioStarts, draws, fetched, writeSucceeds);
      }
    }

    /** `updateQueue`. */
    method UpdateQueue(newQueue: seq<Song>)
      modifies this`queues
      ensures queues == QueueUpdated(old(queues), newQueue)
      ensures Valid()
    {
      queues := queues.(playQueue := newQueue, originalQueue := newQueue);
      if queues.isShuffle {
        queues := queues.(shuffledQueue := newQueue);
      }
    }

    /** `removeSongFromQueue`. */
    method RemoveSongFromQueue(songId: string)
      modifies this`queues
      ensures State() == SongRemoved(old(State()), songId)
      ensures old(Valid()) ==> Valid()
    {
      if player.currentSong.Some? && player.currentSong.value.id == songId {
        return;
      }
      UpdateQueue(Filter(queues.playQueue, NotSongId(songId)));
    }

    /** `toggleLikeSong`. */
    method ToggleLikeSong(songId: string)
      modifies this`user
      ensures user == old(user).(likedSongs := Toggle(old(user).likedSongs, songId))
    {
      user := user.(likedSongs := Toggle(user.likedSongs, songId));
    }

    /** `togglePinItem`: the item type is not part of the pin. */
    method TogglePinItem(itemId: string, kind: ItemType)
      modifies this`user
      ensures user == old(user).(pinnedItems := Toggle(old(user).pinnedItems, itemId))
    {
      user := user.(pinnedItems := Toggle(user.pinnedItems, itemId));
    }

    /** `createPlaylist`, its id made from the clock. */
    method CreatePlaylist(name: string, now: nat)
      modifies this`user
      ensures user == PlaylistCreated(old(user), name, now)
    {
      user := user.(playlists := user.playlists + [Playlist(NewPlaylistId(now), name, [])]);
    }

    /** `addSongToPlaylist`. */
    method AddSongToPlaylist(playlistId: string, songId: string)
      modifies this`user
      ensures user == old(user).(playlists := AddToPlaylist(old(user).playlists, playlistId, songId))
    {
      user := user.(playlists := AddToPlaylist(user.playlists, playlistId, songId));
    }

    /** `toggleAI`. */
    method ToggleAI()
      modifies this`user
      ensures user == old(user).(isAIEnabled := !old(user).isAIEnabled)
    {
      user := user.(isAIEnabled := !user.isAIEnabled);
    }

    /** `getSmartPlaylists`, with the clock, the hour and the draws of each shuffle as parameters. */
    method GetSmartPlaylists(now: int, hour: int, draws: string -> seq<nat>) returns (r: seq<SmartPlaylist>)
      modifies this`lib
      ensures r == SmartPlaylists.SmartPlaylists(SongsOf(old(State())), ArtistsIn(old(State())), user.isAIEnabled, now, hour, draws)
      ensures State() == SmartBuilt(old(State()))
    {
      var e := State();
      if SongsOf(e) != [] && user.isAIEnabled {
        lib := lib.(artistsSorted := true);
      }
      assert State() == SmartBuilt(e);
      r := SmartPlaylists.SmartPlaylists(SongsOf(e), ArtistsIn(e), e.user.isAIEnabled, now, hour, draws);
    }
  }
}
