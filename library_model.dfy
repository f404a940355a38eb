/**
 * The library the playback engine derives from its raw songs and play histories
 * (`contexts/MusicContext.tsx`): the history-merged `songs` ordered by date added, the `albums`
 * grouped by `album-artist` key, the `artists` grouped by name, and `getItemById`.
 *
 * The album and artist builders fill an insertion-ordered map in a loop and then finish every entry;
 * they are methods proved equal to the functions `AlbumsOf` and `ArtistsOf`.
 */
module LibraryModel {
  import opened Optional
  import opened Seqs
  import opened Types

  // ---------------------------------------------------------------- songs

  /** One raw song with its play history applied: a zero history count falls back to the song's own. */
  function WithHistory(s: Song, songHistory: map<string, History>): (r: Song)
    ensures r.id == s.id && r.dateAdded == s.dateAdded && r.artist == s.artist && r.album == s.album
    ensures s.id in songHistory && songHistory[s.id].playCount != 0 ==> r.playCount == songHistory[s.id].playCount
    ensures (s.id !in songHistory || songHistory[s.id].playCount == 0) ==> r.playCount == s.playCount
    ensures r.lastPlayed == if s.id in songHistory then songHistory[s.id].lastPlayed else None
  {
    var h := if s.id in songHistory then Some(songHistory[s.id]) else None;
    s.(playCount := if h.Some? && h.value.playCount != 0 then h.value.playCount else s.playCount,
       lastPlayed := if h.Some? then h.value.lastPlayed else None)
  }

  function ApplyHistory(songHistory: map<string, History>): Song -> Song {
    (s: Song) => WithHistory(s, songHistory)
  }

  /** Songs compare by the date they were added. */
  function DateKey(s: Song): Key {
    Key(s.dateAdded, 0)
  }

  /** The `songs` memo: every raw song with its history, sorted by date added. */
  function MergedSongs(rawSongs: seq<Song>, songHistory: map<string, History>): seq<Song> {
    SortByKey(Map(rawSongs, ApplyHistory(songHistory)), DateKey)
  }

  /**
   * The merged songs are the raw songs with their histories, ordered by date added; songs added
   * at the same instant keep their raw order.
   */
  lemma MergedSongsOrder(rawSongs: seq<Song>, songHistory: map<string, History>)
    ensures var r := MergedSongs(rawSongs, songHistory);
      && |r| == |rawSongs|
      && multiset(r) == multiset(Map(rawSongs, ApplyHistory(songHistory)))
      && SortedByKey(r, DateKey)
      && forall k :: Filter(r, KeyIs(DateKey, k)) == Filter(Map(rawSongs, ApplyHistory(songHistory)), KeyIs(DateKey, k))
  {
    var merged := Map(rawSongs, ApplyHistory(songHistory));
    forall k ensures Filter(SortByKey(merged, DateKey), KeyIs(DateKey, k)) == Filter(merged, KeyIs(DateKey, k)) {
      SortIsStable(merged, DateKey, k);
    }
  }

  // ---------------------------------------------------------------- albums

  /** The album key `${album}-${artist}`; it is also the album's id. */
  function AlbumKey(s: Song): string {
    s.album + "-" + s.artist
  }

  function HasAlbumKey(k: string): Song -> bool {
    (s: Song) => AlbumKey(s) == k
  }

  /** `trackNumber || Infinity`: songs with a track number come first by number; a missing or zero one sorts last. */
  function TrackKey(s: Song): Key {
    if s.trackNumber.Some? && s.trackNumber.value != 0 then Key(0, s.trackNumber.value) else Key(1, 0)
  }

  /** The release type by song count. */
  function TypeForCount(n: nat): (t: AlbumType)
    ensures t == Single <==> n == 1
    ensures t == EP <==> 2 <= n <= 4
    ensures t == FullLength <==> n == 0 || n > 4
  {
    if n == 1 then Single else if n > 1 && n <= 4 then EP else FullLength
  }

  /** The entry created when a key is first seen: header fields from that song, no songs yet. */
  function NewAlbum(first: Song): Album {
    Album(AlbumKey(first), first.album, first.artist, first.coverArt, [], FullLength, 0, None)
  }

  /** The `forEach` pass over one album: sort by track, classify, and copy the album's history if any. */
  function FinishAlbum(a: Album, albumHistory: map<string, History>): Album {
    var sorted := SortByKey(a.songs, TrackKey);
    a.(songs := sorted,
       kind := TypeForCount(|sorted|),
       playCount := if a.id in albumHistory then albumHistory[a.id].playCount else a.playCount,
       lastPlayed := if a.id in albumHistory then albumHistory[a.id].lastPlayed else a.lastPlayed)
  }

  /** The distinct album keys of `songs`, in first-appearance order: the order of `albums`. */
  function AlbumKeys(songs: seq<Song>): seq<string> {
    Distinct(Map(songs, AlbumKey))
  }

  /** A key is an album key of `songs` exactly when some song has it. */
  lemma KeyHasSongs(songs: seq<Song>, k: string)
    ensures k in AlbumKeys(songs) <==> |Filter(songs, HasAlbumKey(k))| > 0
  {
    InMap(songs, AlbumKey, k);
    var group := Filter(songs, HasAlbumKey(k));
    if k in AlbumKeys(songs) {
      var i :| 0 <= i < |songs| && AlbumKey(songs[i]) == k;
      assert songs[i] in group;
    }
    if |group| > 0 {
      assert group[0] in songs && AlbumKey(group[0]) == k;
      var i :| 0 <= i < |songs| && songs[i] == group[0];
      assert AlbumKey(songs[i]) == k;
    }
  }

  /**
   * The entry of key `k` once every song of `songs` is pushed: the first song's header and all the
   * key's songs. A key no song has never gets an entry; it is given an empty one here.
   */
  function GroupShell(songs: seq<Song>, k: string): (a: Album)
    ensures a.id == k
  {
    var group := Filter(songs, HasAlbumKey(k));
    if group == [] then Album(k, "", "", None, [], FullLength, 0, None)
    else
      assert AlbumKey(group[0]) == k by {
        assert group[0] in group;
      }
      NewAlbum(group[0]).(songs := group)
  }

  /** A key stays a key when a song is added, and the added song's key becomes one. */
  lemma KeyGrows(prefix: seq<Song>, s: Song, k: string)
    ensures k in AlbumKeys(prefix) || AlbumKey(s) == k ==> k in AlbumKeys(prefix + [s])
  {
    FilterSnoc(prefix, s, HasAlbumKey(k));
    KeyHasSongs(prefix, k);
    KeyHasSongs(prefix + [s], k);
  }

  /** One pass of the grouping loop: the song joins its key's group, which is opened if it is new. */
  lemma GroupedStep(prefix: seq<Song>, s: Song, order: seq<string>, groups: map<string, Album>)
    requires forall k :: k in groups <==> k in order
    requires forall k :: k in groups ==> groups[k] == GroupShell(prefix, k)
    requires order == AlbumKeys(prefix)
    ensures var k := AlbumKey(s);
      var started := if k in groups then groups else groups[k := NewAlbum(s)];
      var grown := started[k := started[k].(songs := started[k].songs + [s])];
      forall k' :: k' in grown ==> grown[k'] == GroupShell(prefix + [s], k')
  {
    var k := AlbumKey(s);
    var started := if k in groups then groups else groups[k := NewAlbum(s)];
    var grown := started[k := started[k].(songs := started[k].songs + [s])];
    forall k' | k' in grown ensures grown[k'] == GroupShell(prefix + [s], k') {
      KeyGrows(prefix, s, k');
      GroupShellStep(prefix, s, k');
      if k' == k && k !in groups {
        assert NewAlbum(s).songs + [s] == [s];
      }
    }
  }

  /** Pushing one more song: a new key gets a fresh entry, a known key gets the song appended. */
  lemma GroupShellStep(songs: seq<Song>, s: Song, k: string)
    requires k in AlbumKeys(songs + [s])
    ensures k in AlbumKeys(songs) ==>
      GroupShell(songs + [s], k) == (var a := GroupShell(songs, k); if AlbumKey(s) == k then a.(songs := a.songs + [s]) else a)
    ensures k !in AlbumKeys(songs) ==> AlbumKey(s) == k && GroupShell(songs + [s], k) == NewAlbum(s).(songs := [s])
  {
    FilterSnoc(songs, s, HasAlbumKey(k));
    KeyHasSongs(songs, k);
    KeyHasSongs(songs + [s], k);
  }

  /** The album of key `k`: the songs with that key, headed by the first of them. */
  function AlbumFor(songs: seq<Song>, k: string, albumHistory: map<string, History>): (a: Album)
    ensures a.id == k
  {
    FinishAlbum(GroupShell(songs, k), albumHistory)
  }

  /**
   * An album holds exactly the songs of its key, ordered by track number (missing or zero last,
   * ties in library order), is classified by its song count, and carries its own history or none.
   */
  lemma AlbumContents(songs: seq<Song>, k: string, albumHistory: map<string, History>)
    requires k in AlbumKeys(songs)
    ensures var a := AlbumFor(songs, k, albumHistory);
      && (forall s :: s in a.songs <==> s in songs && AlbumKey(s) == k)
      && multiset(a.songs) == multiset(Filter(songs, HasAlbumKey(k)))
      && SortedByKey(a.songs, TrackKey)
      && (forall t :: Filter(a.songs, KeyIs(TrackKey, t)) == Filter(Filter(songs, HasAlbumKey(k)), KeyIs(TrackKey, t)))
      && a.kind == TypeForCount(|a.songs|)
      && a.playCount == (if k in albumHistory then albumHistory[k].playCount else 0)
      && a.lastPlayed == (if k in albumHistory then albumHistory[k].lastPlayed else None)
  {
    var a := AlbumFor(songs, k, albumHistory);
    var group := Filter(songs, HasAlbumKey(k));
    assert GroupShell(songs, k).songs == group;
    SameElements(a.songs, group);
    forall t ensures Filter(a.songs, KeyIs(TrackKey, t)) == Filter(group, KeyIs(TrackKey, t)) {
      SortIsStable(group, TrackKey, t);
    }
  }

  /** The albums of the keys `keys`, in that order. */
  function AlbumsFrom(songs: seq<Song>, keys: seq<string>, albumHistory: map<string, History>): (r: seq<Album>)
  {
    if keys == [] then []
    else
      var k := keys[|keys| - 1];
      AlbumsFrom(songs, keys[..|keys| - 1], albumHistory) + [AlbumFor(songs, k, albumHistory)]
  }

  lemma AlbumsFromPrefix(songs: seq<Song>, keys: seq<string>, j: nat, group: Album, albumHistory: map<string, History>)
    requires j < |keys| && group == GroupShell(songs, keys[j])
    ensures AlbumsFrom(songs, keys[..j + 1], albumHistory) == AlbumsFrom(songs, keys[..j], albumHistory) + [FinishAlbum(group, albumHistory)]
  {
    assert keys[..j + 1][..j] == keys[..j];
  }

  /** The album at position `i` is the album of the `i`-th key. */
  lemma {:induction false} AlbumAt(songs: seq<Song>, keys: seq<string>, albumHistory: map<string, History>, i: nat)
    requires i < |keys|
    ensures |AlbumsFrom(songs, keys, albumHistory)| == |keys|
    ensures AlbumsFrom(songs, keys, albumHistory)[i] == AlbumFor(songs, keys[i], albumHistory)
  {
    AlbumsFromLength(songs, keys[..|keys| - 1], albumHistory);
    if i < |keys| - 1 {
      AlbumAt(songs, keys[..|keys| - 1], albumHistory, i);
    }
  }

  lemma {:induction false} AlbumsFromLength(songs: seq<Song>, keys: seq<string>, albumHistory: map<string, History>)
    ensures |AlbumsFrom(songs, keys, albumHistory)| == |keys|
  {
    if keys != [] {
      AlbumsFromLength(songs, keys[..|keys| - 1], albumHistory);
    }
  }

  /** The `albums` memo. */
  function AlbumsOf(songs: seq<Song>, albumHistory: map<string, History>): seq<Album> {
    AlbumsFrom(songs, AlbumKeys(songs), albumHistory)
  }

  /** There is one album per distinct key, in first-appearance order, and album ids never repeat. */
  lemma AlbumsOfKeys(songs: seq<Song>, albumHistory: map<string, History>)
    ensures var albums := AlbumsOf(songs, albumHistory);
      && |albums| == |AlbumKeys(songs)|
      && (forall i :: 0 <= i < |albums| ==> albums[i].id == AlbumKeys(songs)[i])
      && (forall i, j :: 0 <= i < j < |albums| ==> albums[i].id != albums[j].id)
  {
    var keys := AlbumKeys(songs);
    AlbumsFromLength(songs, keys, albumHistory);
    forall i | 0 <= i < |keys| ensures AlbumsOf(songs, albumHistory)[i].id == keys[i] {
      AlbumAt(songs, keys, albumHistory, i);
    }
  }

  /**
   * Every song falls into exactly one album, the one whose id is its `album-artist` key, and an
   * album holds exactly the songs of its key.
   */
  lemma SongInExactlyOneAlbum(songs: seq<Song>, albumHistory: map<string, History>, s: Song)
    requires s in songs
    ensures var albums := AlbumsOf(songs, albumHistory);
      exists i :: 0 <= i < |albums| && s in albums[i].songs && albums[i].id == AlbumKey(s)
    ensures var albums := AlbumsOf(songs, albumHistory);
      forall i, j :: 0 <= i < |albums| && 0 <= j < |albums| && s in albums[i].songs && s in albums[j].songs ==> i == j
  {
    var albums := AlbumsOf(songs, albumHistory);
    var keys := AlbumKeys(songs);
    AlbumsOfKeys(songs, albumHistory);
    InMap(songs, AlbumKey, AlbumKey(s));
    var i :| 0 <= i < |keys| && keys[i] == AlbumKey(s);
    AlbumMembers(songs, albumHistory, i);
    forall i, j | 0 <= i < |albums| && 0 <= j < |albums| && s in albums[i].songs && s in albums[j].songs
      ensures i == j
    {
      AlbumMembers(songs, albumHistory, i);
      AlbumMembers(songs, albumHistory, j);
    }
  }

  /** The `i`-th album holds exactly the songs with its key. */
  lemma AlbumMembers(songs: seq<Song>, albumHistory: map<string, History>, i: nat)
    requires i < |AlbumKeys(songs)|
    ensures var albums := AlbumsOf(songs, albumHistory);
      i < |albums| && albums[i].id == AlbumKeys(songs)[i]
      && forall s :: s in albums[i].songs <==> s in songs && AlbumKey(s) == albums[i].id
  {
    var keys := AlbumKeys(songs);
    AlbumsOfKeys(songs, albumHistory);
    AlbumAt(songs, keys, albumHistory, i);
    AlbumContents(songs, keys[i], albumHistory);
  }

  /** Two different album/artist pairs can share a key: `("a-b", "c")` and `("a", "b-c")` both give `a-b-c`. */
  lemma AlbumKeysCanCollide(s: Song, t: Song)
    requires s.album == "a-b" && s.artist == "c" && t.album == "a" && t.artist == "b-c"
    ensures AlbumKey(s) == AlbumKey(t) && (s.album, s.artist) != (t.album, t.artist)
  {
  }

  /** The `for` loop of the album builder: an insertion-ordered map from key to entry, each song pushed onto its entry. */
  method GroupByAlbum(songs: seq<Song>) returns (order: seq<string>, groups: map<string, Album>)
    ensures order == AlbumKeys(songs)
    ensures forall k :: k in groups <==> k in order
    ensures forall k :: k in groups ==> groups[k] == GroupShell(songs, k)
  {
    order, groups := [], map[];
    for i := 0 to |songs|
      invariant order == AlbumKeys(songs[..i])
      invariant forall k :: k in groups <==> k in order
      invariant forall k :: k in groups ==> groups[k] == GroupShell(songs[..i], k)
    {
      var s := songs[i];
      var k := AlbumKey(s);
      assert songs[..i + 1] == songs[..i] + [s];
      DistinctMapStep(songs, AlbumKey, i);
      GroupedStep(songs[..i], s, order, groups);
      if k !in groups {
        groups := groups[k := NewAlbum(s)];
        order := order + [k];
      }
      groups := groups[k := groups[k].(songs := groups[k].songs + [s])];
    }
    assert songs[..|songs|] == songs;
  }

  /** The album builder: the grouping pass, then the `forEach` pass finishing every entry in insertion order. */
  method BuildAlbums(songs: seq<Song>, albumHistory: map<string, History>) returns (albums: seq<Album>)
    ensures albums == AlbumsOf(songs, albumHistory)
  {
    var order, groups := GroupByAlbum(songs);
    albums := FinishAlbums(songs, order, groups, albumHistory);
  }

  /** The `forEach` pass: every grouped album finished, in the order its key was first seen. */
  method FinishAlbums(songs: seq<Song>, order: seq<string>, groups: map<string, Album>, albumHistory: map<string, History>)
    returns (albums: seq<Album>)
    requires forall k :: k in order ==> k in groups && groups[k] == GroupShell(songs, k)
    ensures albums == AlbumsFrom(songs, order, albumHistory)
  {
    albums := [];
    for j := 0 to |order|
      invariant albums == AlbumsFrom(songs, order[..j], albumHistory)
    {
      var k := order[j];
      assert k in order;
      var a := FinishAlbum(groups[k], albumHistory);
      AlbumsFromPrefix(songs, order, j, groups[k], albumHistory);
      albums := albums + [a];
    }
    assert order[..|order|] == order;
  }

  // ---------------------------------------------------------------- artists

  function SongArtist(s: Song): string {
    s.artist
  }

  function SongBy(name: string): Song -> bool {
    (s: Song) => s.artist == name
  }

  function AlbumBy(name: string): Album -> bool {
    (a: Album) => a.artist == name
  }

  /** The distinct artist names of `songs`, in first-appearance order. */
  function ArtistNames(songs: seq<Song>): seq<string> {
    Distinct(Map(songs, SongArtist))
  }

  /** A name is an artist name of `songs` exactly when some song has it. */
  lemma NameHasSongs(songs: seq<Song>, k: string)
    ensures k in ArtistNames(songs) <==> |Filter(songs, SongBy(k))| > 0
  {
    InMap(songs, SongArtist, k);
    var group := Filter(songs, SongBy(k));
    if k in ArtistNames(songs) {
      var i :| 0 <= i < |songs| && SongArtist(songs[i]) == k;
      assert songs[i] in group;
    }
    if |group| > 0 {
      assert group[0] in songs && group[0].artist == k;
      var i :| 0 <= i < |songs| && songs[i] == group[0];
      assert SongArtist(songs[i]) == k;
    }
  }

  /** The entry of name `k` once every song of `songs` is pushed: no albums yet, and the name's songs. */
  function ArtistShell(songs: seq<Song>, k: string): Artist {
    Artist(k, [], Filter(songs, SongBy(k)), None, 0, None)
  }

  /** Pushing one more song appends it to its artist's entry and leaves the others as they were. */
  lemma ArtistShellStep(songs: seq<Song>, s: Song, k: string)
    ensures ArtistShell(songs + [s], k) == (var a := ArtistShell(songs, k); if s.artist == k then a.(songs := a.songs + [s]) else a)
  {
    FilterSnoc(songs, s, SongBy(k));
  }

  /** The `forEach` pass over one artist: attach the albums headed by the artist, the first one's cover, and its history if any. */
  function FinishArtist(a: Artist, albums: seq<Album>, artistHistory: map<string, History>): Artist {
    var own := Filter(albums, AlbumBy(a.name));
    var withAlbums := a.(albums := own, coverArt := if own == [] then None else own[0].coverArt);
    if a.name in artistHistory then
      withAlbums.(playCount := artistHistory[a.name].playCount, lastPlayed := artistHistory[a.name].lastPlayed)
    else withAlbums
  }

  /** The artist called `name`. */
  function ArtistFor(songs: seq<Song>, albums: seq<Album>, name: string, artistHistory: map<string, History>): (a: Artist)
    ensures a.name == name
  {
    FinishArtist(ArtistShell(songs, name), albums, artistHistory)
  }

  /**
   * An artist holds exactly its songs in library order and the albums whose header artist is its
   * name, shows the first such album's cover, and carries its own history or none.
   */
  lemma ArtistContents(songs: seq<Song>, albums: seq<Album>, name: string, artistHistory: map<string, History>)
    ensures var a := ArtistFor(songs, albums, name, artistHistory);
      && a.songs == Filter(songs, SongBy(name)) && a.albums == Filter(albums, AlbumBy(name))
      && (forall s :: s in a.songs <==> s in songs && s.artist == name)
      && (forall x :: x in a.albums <==> x in albums && x.artist == name)
      && a.coverArt == (if a.albums == [] then None else a.albums[0].coverArt)
      && a.playCount == (if name in artistHistory then artistHistory[name].playCount else 0)
      && a.lastPlayed == (if name in artistHistory then artistHistory[name].lastPlayed else None)
  {
  }

  function ArtistsFrom(songs: seq<Song>, albums: seq<Album>, names: seq<string>, artistHistory: map<string, History>): seq<Artist> {
    if names == [] then []
    else ArtistsFrom(songs, albums, names[..|names| - 1], artistHistory) + [ArtistFor(songs, albums, names[|names| - 1], artistHistory)]
  }

  lemma ArtistsFromPrefix(songs: seq<Song>, albums: seq<Album>, names: seq<string>, j: nat, artistHistory: map<string, History>)
    requires j < |names|
    ensures ArtistsFrom(songs, albums, names[..j + 1], artistHistory)
         == ArtistsFrom(songs, albums, names[..j], artistHistory) + [ArtistFor(songs, albums, names[j], artistHistory)]
  {
    assert names[..j + 1][..j] == names[..j];
  }

  /** The artist at position `i` is the artist of the `i`-th name. */
  lemma {:induction false} ArtistAt(songs: seq<Song>, albums: seq<Album>, names: seq<string>, artistHistory: map<string, History>, i: nat)
    requires i < |names|
    ensures |ArtistsFrom(songs, albums, names, artistHistory)| == |names|
    ensures ArtistsFrom(songs, albums, names, artistHistory)[i] == ArtistFor(songs, albums, names[i], artistHistory)
  {
    ArtistsFromLength(songs, albums, names[..|names| - 1], artistHistory);
    if i < |names| - 1 {
      ArtistAt(songs, albums, names[..|names| - 1], artistHistory, i);
    }
  }

  lemma {:induction false} ArtistsFromLength(songs: seq<Song>, albums: seq<Album>, names: seq<string>, artistHistory: map<string, History>)
    ensures |ArtistsFrom(songs, albums, names, artistHistory)| == |names|
  {
    if names != [] {
      ArtistsFromLength(songs, albums, names[..|names| - 1], artistHistory);
    }
  }

  /** The `artists` memo: one artist per distinct name, in first-appearance order. */
  function ArtistsOf(songs: seq<Song>, albums: seq<Album>, artistHistory: map<string, History>): seq<Artist> {
    ArtistsFrom(songs, albums, ArtistNames(songs), artistHistory)
  }

  /**
   * There is one artist per distinct song artist, names never repeat, and every song is listed
   * under the artist of its name.
   */
  lemma ArtistsOfNames(songs: seq<Song>, albums: seq<Album>, artistHistory: map<string, History>)
    ensures var r := ArtistsOf(songs, albums, artistHistory);
      && |r| == |ArtistNames(songs)|
      && (forall i, j :: 0 <= i < j < |r| ==> r[i].name != r[j].name)
      && (forall s :: s in songs ==> exists i :: 0 <= i < |r| && r[i].name == s.artist && s in r[i].songs)
  {
    ArtistsFollowNames(songs, albums, artistHistory);
    forall s | s in songs
      ensures exists i :: (0 <= i < |ArtistsOf(songs, albums, artistHistory)|
        && ArtistsOf(songs, albums, artistHistory)[i].name == s.artist && s in ArtistsOf(songs, albums, artistHistory)[i].songs)
    {
      ArtistOfSong(songs, albums, artistHistory, s);
    }
  }

  /** The derived artists are the distinct artist names, one entry each, in first-seen order. */
  lemma ArtistsFollowNames(songs: seq<Song>, albums: seq<Album>, artistHistory: map<string, History>)
    ensures var r := ArtistsOf(songs, albums, artistHistory);
      |r| == |ArtistNames(songs)| && forall i :: 0 <= i < |r| ==> r[i].name == ArtistNames(songs)[i]
  {
    var names := ArtistNames(songs);
    var r := ArtistsOf(songs, albums, artistHistory);
    ArtistsFromLength(songs, albums, names, artistHistory);
    forall i | 0 <= i < |r| ensures r[i].name == names[i] {
      ArtistAt(songs, albums, names, artistHistory, i);
    }
  }

  /** Every song is listed under the artist entry of its artist's name. */
  lemma ArtistOfSong(songs: seq<Song>, albums: seq<Album>, artistHistory: map<string, History>, s: Song)
    requires s in songs
    ensures var r := ArtistsOf(songs, albums, artistHistory);
      exists i :: 0 <= i < |r| && r[i].name == s.artist && s in r[i].songs
  {
    var names := ArtistNames(songs);
    assert s.artist in names by {
      var n :| 0 <= n < |songs| && songs[n] == s;
      InMap(songs, SongArtist, s.artist);
    }
    var i :| 0 <= i < |names| && names[i] == s.artist;
    ArtistAt(songs, albums, names, artistHistory, i);
    ArtistSongs(songs, albums, s.artist, artistHistory);
    var r := ArtistsOf(songs, albums, artistHistory);
    assert r[i] == ArtistFor(songs, albums, s.artist, artistHistory);
    assert SongBy(s.artist)(s) && s in Filter(songs, SongBy(s.artist));
    assert r[i].name == s.artist && s in r[i].songs;
  }

  /** An artist entry holds exactly the songs by that artist, in library order. */
  lemma ArtistSongs(songs: seq<Song>, albums: seq<Album>, name: string, artistHistory: map<string, History>)
    ensures ArtistFor(songs, albums, name, artistHistory).songs == Filter(songs, SongBy(name))
  {
  }

  /** The `for` loop of the artist builder: an insertion-ordered map from name to entry, each song pushed onto its entry. */
  method GroupByArtist(songs: seq<Song>) returns (order: seq<string>, groups: map<string, Artist>)
    ensures order == ArtistNames(songs)
    ensures forall k :: k in groups <==> k in order
    ensures forall k :: k in groups ==> groups[k] == ArtistShell(songs, k)
  {
    order, groups := [], map[];
    for i := 0 to |songs|
      invariant order == ArtistNames(songs[..i])
      invariant forall k :: k in groups <==> k in order
      invariant forall k :: k in groups ==> groups[k] == ArtistShell(songs[..i], k)
    {
      var s := songs[i];
      var k := s.artist;
      assert songs[..i + 1] == songs[..i] + [s];
      DistinctMapStep(songs, SongArtist, i);
      if k !in groups {
        NameHasSongs(songs[..i], k);
        groups := groups[k := ArtistShell(songs[..i], k)];
        order := order + [k];
      }
      groups := groups[k := groups[k].(songs := groups[k].songs + [s])];
      forall k' | k' in groups ensures groups[k'] == ArtistShell(songs[..i + 1], k') {
        ArtistShellStep(songs[..i], s, k');
      }
    }
    assert songs[..|songs|] == songs;
  }

  /** The artist builder: the grouping pass, then the `forEach` pass attaching albums, cover and history. */
  method BuildArtists(songs: seq<Song>, albums: seq<Album>, artistHistory: map<string, History>) returns (artists: seq<Artist>)
    ensures artists == ArtistsOf(songs, albums, artistHistory)
  {
    var order, groups := GroupByArtist(songs);
    artists := [];
    for j := 0 to |order|
      invariant artists == ArtistsFrom(songs, albums, order[..j], artistHistory)
    {
      var name := order[j];
      assert groups[name] == ArtistShell(songs, name);
      var a := FinishArtist(groups[name], albums, artistHistory);
      assert a == ArtistFor(songs, albums, name, artistHistory);
      ArtistsFromPrefix(songs, albums, order, j, artistHistory);
      artists := artists + [a];
    }
    assert order[..|order|] == order;
  }

  // ---------------------------------------------------------------- lookup

  function SongId(s: Song): string {
    s.id
  }

  function InSet(ids: set<string>): Song -> bool {
    (s: Song) => s.id in ids
  }

  /** The synthetic "Liked Songs" playlist: the ids of the liked library songs, in library order. */
  function LikedPlaylist(songs: seq<Song>, likedSongs: set<string>): (p: Playlist)
    ensures p.id == "liked" && p.name == "Liked Songs"
    ensures forall id :: id in p.songs <==> exists s :: s in songs && s.id == id && id in likedSongs
    ensures p.songs == Filter(Map(songs, SongId), IsLikedId(likedSongs)) && IsSubseq(p.songs, Map(songs, SongId))
  {
    var liked := Filter(songs, InSet(likedSongs));
    var ids := Map(liked, SongId);
    assert forall id :: id in ids ==> exists s :: s in songs && s.id == id && id in likedSongs by {
      forall id | id in ids ensures exists s :: s in songs && s.id == id && id in likedSongs {
        var i :| 0 <= i < |ids| && ids[i] == id;
        assert liked[i] in liked;
      }
    }
    assert forall s :: s in songs && s.id in likedSongs ==> s.id in ids by {
      forall s | s in songs && s.id in likedSongs ensures s.id in ids {
        assert s in liked;
        var i :| 0 <= i < |liked| && liked[i] == s;
        assert ids[i] == s.id;
      }
    }
    MapFilter(songs, SongId, InSet(likedSongs), IsLikedId(likedSongs));
    FilterIsSubseq(Map(songs, SongId), IsLikedId(likedSongs));
    Playlist("liked", "Liked Songs", ids)
  }

  function IsLikedId(likedSongs: set<string>): string -> bool {
    (id: string) => id in likedSongs
  }

  function AlbumWithId(id: string): Album -> bool {
    (a: Album) => a.id == id
  }

  function ArtistNamed(name: string): Artist -> bool {
    (a: Artist) => a.name == name
  }

  function PlaylistWithId(id: string): Playlist -> bool {
    (p: Playlist) => p.id == id
  }

  /**
   * `getItemById`: an album by id, an artist by name, the liked-songs playlist for `liked`, or a
   * user playlist by id; the first match wins and no match gives `None`.
   */
  function ItemById(kind: ItemType, id: string, songs: seq<Song>, albums: seq<Album>, artists: seq<Artist>,
                    playlists: seq<Playlist>, likedSongs: set<string>): (r: Option<LibraryItem>)
    ensures kind == ItemAlbum ==> (r.Some? <==> exists a :: a in albums && a.id == id)
    ensures kind == ItemAlbum && r.Some? ==> r.value.AlbumItem? && r.value.album.id == id && r.value.album in albums
    ensures kind == ItemAlbum && r.Some? ==>
      exists j :: 0 <= j < |albums| && albums[j] == r.value.album && forall k :: 0 <= k < j ==> albums[k].id != id
    ensures kind == ItemArtist ==> (r.Some? <==> exists a :: a in artists && a.name == id)
    ensures kind == ItemArtist && r.Some? ==> r.value.ArtistItem? && r.value.artist.name == id && r.value.artist in artists
    ensures kind == ItemArtist && r.Some? ==>
      exists j :: 0 <= j < |artists| && artists[j] == r.value.artist && forall k :: 0 <= k < j ==> artists[k].name != id
    ensures kind == ItemPlaylist && id == "liked" ==> r == Some(PlaylistItem(LikedPlaylist(songs, likedSongs)))
    ensures kind == ItemPlaylist && id != "liked" ==> (r.Some? <==> exists p :: p in playlists && p.id == id)
    ensures kind == ItemPlaylist && id != "liked" && r.Some? ==> r.value.PlaylistItem? && r.value.playlist.id == id && r.value.playlist in playlists
    ensures kind == ItemPlaylist && id != "liked" && r.Some? ==>
      exists j :: 0 <= j < |playlists| && playlists[j] == r.value.playlist && forall k :: 0 <= k < j ==> playlists[k].id != id
  {
    match kind
    case ItemAlbum =>
      (match Find(albums, AlbumWithId(id)) case Some(a) => Some(AlbumItem(a)) case None => None)
    case ItemArtist =>
      (match Find(artists, ArtistNamed(id)) case Some(a) => Some(ArtistItem(a)) case None => None)
    case ItemPlaylist =>
      if id == "liked" then Some(PlaylistItem(LikedPlaylist(songs, likedSongs)))
      else (match Find(playlists, PlaylistWithId(id)) case Some(p) => Some(PlaylistItem(p)) case None => None)
  }
}
