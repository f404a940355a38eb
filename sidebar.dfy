/**
 * The sidebar's library list (`components/Sidebar.tsx`). Its filter, pinned-first order, keys and
 * links are the library page's; only the subtext differs from the item card's. Above the list sits
 * the "Liked Songs" row.
 */
module Sidebar {
  import opened Optional
  import opened Types
  import opened JsText
  import opened LibraryItems
  import opened ItemCard
  import PlaylistView

  /** `getItemSubtext`: "Artist", "Album · <artist>" whatever the album's type, or "Playlist · You". */
  function SidebarSubtext(item: LibraryItem): string {
    match ItemTypeOf(item)
    case ItemArtist => "Artist"
    case ItemAlbum => "Album" + Dot + item.album.artist
    case ItemPlaylist => "Playlist" + Dot + "You"
  }

  /** Each kind's subtext starts with a different word, and an album's names its artist after the dot. */
  lemma SidebarSubtextTellsKinds(item: LibraryItem)
    ensures var t := SidebarSubtext(item);
      && |t| >= 5
      && (t[..2] == "Ar" <==> item.ArtistItem?)
      && (t[..2] == "Al" <==> item.AlbumItem?)
      && (t[..2] == "Pl" <==> item.PlaylistItem?)
      && (item.AlbumItem? ==> t[8..] == item.album.artist)
  {
    var t := SidebarSubtext(item);
    match item
    case ArtistItem(_) =>
      assert t[..2] == "Ar";
    case AlbumItem(a) =>
      assert t == "Album" + Dot + a.artist;
      assert t[..2] == "Al" && t[8..] == a.artist;
    case PlaylistItem(_) =>
      assert t[..2] == "Pl";
  }

  /** The "Liked Songs" row's subtext: `Playlist · <n> songs`, where `n` is the number of liked ids. */
  function LikedRowSubtext(likedSongs: set<string>): string {
    "Playlist" + Dot + NatToString(|likedSongs|) + " songs"
  }

  /** The row's number reads back as the count of liked ids, whether or not their songs are loaded. */
  lemma LikedRowCountsLikes(likedSongs: set<string>)
    ensures var t := LikedRowSubtext(likedSongs);
      |t| > 11 && t[..11] == "Playlist" + Dot && ParseInt(t[11..]) == Some(|likedSongs|)
  {
    var t := LikedRowSubtext(likedSongs);
    var n := NatToString(|likedSongs|);
    assert t == ("Playlist" + Dot) + (n + " songs");
    assert t[11..] == n + " songs";
    ParseIntDigits(n, " songs");
    NatToStringValue(|likedSongs|);
  }

  /**
   * Likes are restored when the app starts but songs are not, so before any file is loaded the row
   * still counts every like while the Liked Songs page it links to lists no song.
   */
  lemma LikedRowOutlivesLibrary(likedSongs: set<string>, playlists: seq<Playlist>)
    ensures PlaylistView.PageFor("liked", None, playlists, [], likedSongs).songs == []
    ensures ParseInt(LikedRowSubtext(likedSongs)[11..]) == Some(|likedSongs|)
  {
    LikedRowCountsLikes(likedSongs);
  }
}
