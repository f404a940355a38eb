/**
 * The player's records (`types.ts`): songs, albums, artists, playlists and smart playlists, plus the
 * history counters and recent-item entries that the playback engine keeps. Optional fields
 * (`x?: T`) are `Option<T>`; timestamps are integer milliseconds; durations and playback positions
 * are seconds as `real`.
 */
module Types {
  import opened Optional

  /** One timed line of synced lyrics; `startTime` is in milliseconds. */
  datatype SyncedLyricLine = SyncedLyricLine(text: string, startTime: int)

  /** AI-assigned tags; a present key may still hold nothing (`None`). An analysed song with no tags has all three `None`. */
  datatype SongTags = SongTags(genres: Option<seq<string>>, moods: Option<seq<string>>, styles: Option<seq<string>>)

  datatype Song = Song(
    id: string,
    title: string,
    artist: string,
    album: string,
    duration: real,
    filePath: string,
    trackNumber: Option<int>,
    coverArt: Option<string>,
    lyrics: Option<string>,
    syncedLyrics: Option<seq<SyncedLyricLine>>,
    isExplicit: Option<bool>,
    tags: Option<SongTags>,
    playCount: int,
    lastPlayed: Option<int>,
    dateAdded: int)

  datatype AlbumType = FullLength | EP | Single | Mixtape

  datatype Album = Album(
    id: string,
    name: string,
    artist: string,
    coverArt: Option<string>,
    songs: seq<Song>,
    kind: AlbumType,
    playCount: int,
    lastPlayed: Option<int>)

  datatype Artist = Artist(
    name: string,
    albums: seq<Album>,
    songs: seq<Song>,
    coverArt: Option<string>,
    playCount: int,
    lastPlayed: Option<int>)

  /** A user playlist holds song ids, not songs. */
  datatype Playlist = Playlist(id: string, name: string, songs: seq<string>)

  datatype SmartPlaylist = SmartPlaylist(id: string, name: string, description: string, songs: seq<Song>, gradient: Option<string>)

  /** `LibraryItem = Album | Artist | Playlist`. */
  datatype LibraryItem = AlbumItem(album: Album) | ArtistItem(artist: Artist) | PlaylistItem(playlist: Playlist)

  /** `LibraryItemType`. */
  datatype ItemType = ItemAlbum | ItemArtist | ItemPlaylist

  /** A play-history counter, one per song, album and artist. */
  datatype History = History(playCount: int, lastPlayed: Option<int>)

  datatype RecentItem = RecentItem(kind: ItemType, id: string)

  datatype RepeatMode = RepeatNone | RepeatAll | RepeatOne

  /** What the lyrics cache stores per song and `fetchLyrics` returns. */
  datatype LyricsData = LyricsData(plainLyrics: Option<string>, syncedLyrics: Option<seq<SyncedLyricLine>>, isExplicit: bool)

  /** The name of an album type as the views print it (`'Album' | 'EP' | 'Single' | 'Mixtape'`). */
  function AlbumTypeName(t: AlbumType): string {
    match t
    case FullLength => "Album"
    case EP => "EP"
    case Single => "Single"
    case Mixtape => "Mixtape"
  }

  /** JavaScript truthiness of an optional string: absent and empty are both falsy. */
  predicate Truthy(s: Option<string>) {
    s.Some? && s.value != ""
  }
}
