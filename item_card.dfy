/**
 * The library-item card (`components/ItemCard.tsx`): its subtext, the songs its play button
 * starts, and its pin button. Kind, key and link are shared with the library page and the sidebar.
 */
module ItemCard {
  import opened Optional
  import opened Types
  import opened Seqs
  import opened JsText
  import opened LibraryModel
  import opened LibraryItems
  import opened MusicContext

  /** The separator `' · '` the subtexts use. */
  const Dot: string := " \U{00B7} "

  /** `getItemSubtext`: "<type> · <artist>" for an album, "Artist", or "Playlist · <n> songs". */
  function CardSubtext(item: LibraryItem): string {
    match ItemTypeOf(item)
    case ItemArtist => "Artist"
    case ItemAlbum => AlbumTypeName(item.album.kind) + Dot + item.album.artist
    case ItemPlaylist => "Playlist" + Dot + NatToString(|item.playlist.songs|) + " songs"
  }

  /**
   * The subtext tells the kinds apart: only an artist's reads "Artist", and a playlist's starts with
   * "Playlist · " followed by a number that reads back as its count of song ids.
   */
  lemma CardSubtextTellsKinds(item: LibraryItem)
    ensures CardSubtext(item) == "Artist" <==> item.ArtistItem?
    ensures item.PlaylistItem? ==>
      var t := CardSubtext(item);
      |t| > 11 && t[..11] == "Playlist" + Dot && ParseInt(t[11..]) == Some(|item.playlist.songs|)
    ensures item.AlbumItem? ==> var t := CardSubtext(item); |t| > 3 && t[..3] != "Pla"
  {
    match item
    case ArtistItem(_) =>
    case AlbumItem(a) =>
      var t := CardSubtext(item);
      assert t[0] == AlbumTypeName(a.kind)[0];
      assert t != "Artist" by {
        if a.kind == FullLength {
          assert t[1] != "Artist"[1];
        }
      }
    case PlaylistItem(p) =>
      var t := CardSubtext(item);
      var n := NatToString(|p.songs|);
      assert t[0] != "Artist"[0];
      assert t == ("Playlist" + Dot) + (n + " songs");
      assert t[11..] == n + " songs";
      ParseIntDigits(n, " songs");
      NatToStringValue(|p.songs|);
  }

  function IdIn(ids: seq<string>): Song -> bool {
    (s: Song) => s.id in ids
  }

  /**
   * `handlePlay`'s `songsToPlay`: an album's or artist's own songs; for a playlist, the library
   * songs whose id it lists, in library order (ids not in the library are dropped).
   */
  function SongsToPlay(item: LibraryItem, librarySongs: seq<Song>): (r: seq<Song>)
    ensures item.AlbumItem? ==> r == item.album.songs
    ensures item.ArtistItem? ==> r == item.artist.songs
    ensures item.PlaylistItem? ==>
      && IsSubseq(r, librarySongs)
      && forall s :: s in r <==> s in librarySongs && s.id in item.playlist.songs
  {
    match ItemTypeOf(item)
    case ItemAlbum => item.album.songs
    case ItemArtist => item.artist.songs
    case ItemPlaylist =>
      FilterIsSubseq(librarySongs, IdIn(item.playlist.songs));
      Filter(librarySongs, IdIn(item.playlist.songs))
  }

  /** A playlist plays in library order, not in the order it lists its songs. */
  lemma PlaylistPlaysInLibraryOrder(a: Song, b: Song)
    requires a.id != b.id
    ensures SongsToPlay(PlaylistItem(Playlist("p", "p", [b.id, a.id])), [a, b]) == [a, b]
  {
    var ids := [b.id, a.id];
    assert IdIn(ids)(a) && IdIn(ids)(b);
    assert [a, b][1..] == [b];
    assert [b][1..] == [];
  }

  /**
   * `handlePlay`: with songs to play, the first starts with all of them as the queue; with none,
   * nothing happens. The audio start, the shuffle draws and the lyrics lookup are parameters.
   */
  method HandlePlay(engine: MusicEngine, item: LibraryItem, now: int, audioStarts: bool, draws: seq<nat>,
                    fetched: Option<LyricsData>, writeSucceeds: bool)
    modifies engine, engine.lyricsStore
    ensures var list := SongsToPlay(item, SongsOf(old(engine.State())));
      engine.State() ==
        if list == [] then old(engine.State())
        else Played(old(engine.State()), list[0], list, now, audioStarts, draws, fetched, writeSucceeds)
  {
    var songsToPlay := SongsToPlay(item, SongsOf(engine.State()));
    if |songsToPlay| > 0 {
      engine.PlaySong(songsToPlay[0], songsToPlay, now, audioStarts, draws, fetched, writeSucceeds);
    }
  }

  /** `handlePin`: the item's key changes its pinned state and no other pin moves. */
  method HandlePin(engine: MusicEngine, item: LibraryItem)
    modifies engine`user
    ensures engine.user == old(engine.user).(pinnedItems := Toggle(old(engine.user).pinnedItems, ItemId(item)))
    ensures ItemId(item) in engine.user.pinnedItems <==> ItemId(item) !in old(engine.user).pinnedItems
  {
    engine.TogglePinItem(ItemId(item), ItemTypeOf(item));
  }
}
