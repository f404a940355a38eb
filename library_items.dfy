/**
 * The library-item helpers the library page (`pages/Library.tsx`), the sidebar
 * (`components/Sidebar.tsx`) and the item card (`components/ItemCard.tsx`) each define in the same
 * way: an album, artist or playlist is told apart by which fields it has, keyed by its name (artists)
 * or id (the others), linked to its page, and listed under a filter with the pinned items first.
 */
module LibraryItems {
  import opened Optional
  import opened Types
  import opened Seqs
  import opened JsText
  import opened Uri
  import opened LibraryModel

  /** Whether the record carries a field of that name (`'name' in item`); optional fields are left out. */
  predicate HasField(item: LibraryItem, field: string) {
    match item
    case AlbumItem(_) => field in {"id", "name", "artist", "songs", "type", "playCount"}
    case ArtistItem(_) => field in {"name", "albums", "songs", "playCount"}
    case PlaylistItem(_) => field in {"id", "name", "songs"}
  }

  /**
   * `getItemType`: `songs` and `type` present make an album, else `albums` an artist, else a playlist.
   * The field tests pick out exactly the record's own kind.
   */
  function ItemTypeOf(item: LibraryItem): (r: ItemType)
    ensures r == ItemAlbum <==> item.AlbumItem?
    ensures r == ItemArtist <==> item.ArtistItem?
    ensures r == ItemPlaylist <==> item.PlaylistItem?
  {
    if HasField(item, "songs") && HasField(item, "type") then ItemAlbum
    else if HasField(item, "albums") then ItemArtist
    else ItemPlaylist
  }

  /** `getItemId`, also the pin key: the name for an artist (`'albums' in item`), the id otherwise. */
  function ItemId(item: LibraryItem): (r: string)
    ensures item.ArtistItem? ==> r == item.artist.name
    ensures item.AlbumItem? ==> r == item.album.id
    ensures item.PlaylistItem? ==> r == item.playlist.id
  {
    if HasField(item, "albums") then item.artist.name
    else if item.AlbumItem? then item.album.id
    else item.playlist.id
  }

  /**
   * An item's key and kind lead `getItemById` back to it, as long as no earlier entry of its list
   * shares the key and a playlist is not called `liked`.
   */
  lemma ItemKeyResolves(item: LibraryItem, songs: seq<Song>, albums: seq<Album>, artists: seq<Artist>,
                        playlists: seq<Playlist>, likedSongs: set<string>)
    requires item.AlbumItem? ==> item.album in albums && UniqueBy(albums, AlbumId)
    requires item.ArtistItem? ==> item.artist in artists && UniqueBy(artists, ArtistName)
    requires item.PlaylistItem? ==> item.playlist in playlists && UniqueBy(playlists, PlaylistId) && item.playlist.id != "liked"
    ensures ItemById(ItemTypeOf(item), ItemId(item), songs, albums, artists, playlists, likedSongs) == Some(item)
  {
    match item
    case AlbumItem(a) =>
      var r := Find(albums, AlbumWithId(a.id));
      var i :| 0 <= i < |albums| && albums[i] == r.value && forall k :: 0 <= k < i ==> !AlbumWithId(a.id)(albums[k]);
      var j :| 0 <= j < |albums| && albums[j] == a;
      assert AlbumId(albums[i]) == AlbumId(albums[j]);
    case ArtistItem(a) =>
      var r := Find(artists, ArtistNamed(a.name));
      var i :| 0 <= i < |artists| && artists[i] == r.value && forall k :: 0 <= k < i ==> !ArtistNamed(a.name)(artists[k]);
      var j :| 0 <= j < |artists| && artists[j] == a;
      assert ArtistName(artists[i]) == ArtistName(artists[j]);
    case PlaylistItem(p) =>
      var r := Find(playlists, PlaylistWithId(p.id));
      var i :| 0 <= i < |playlists| && playlists[i] == r.value && forall k :: 0 <= k < i ==> !PlaylistWithId(p.id)(playlists[k]);
      var j :| 0 <= j < |playlists| && playlists[j] == p;
      assert PlaylistId(playlists[i]) == PlaylistId(playlists[j]);
  }

  function AlbumId(a: Album): string {
    a.id
  }

  function ArtistName(a: Artist): string {
    a.name
  }

  function PlaylistId(p: Playlist): string {
    p.id
  }

  /** `getItemLink`: `/album/<id>`, `/artist/<encoded name>` or `/playlist/<id>`. */
  function ItemLink(item: LibraryItem): string {
    var id := ItemId(item);
    match ItemTypeOf(item)
    case ItemAlbum => "/album/" + id
    case ItemArtist => "/artist/" + EncodeURIComponent(id)
    case ItemPlaylist => "/playlist/" + id
  }

  /**
   * The path a link holds as the hash router parses it: the text before the first `?` (which
   * starts the query) or `#` (which starts the fragment).
   */
  function PathOf(link: string): (r: string)
    ensures |r| <= |link| && r == link[..|r|] && '?' !in r && '#' !in r
    ensures '?' !in link && '#' !in link ==> r == link
  {
    if link == [] || link[0] == '?' || link[0] == '#' then [] else [link[0]] + PathOf(link[1..])
  }

  /** A path is cut at the first `?` or `#`. */
  lemma {:induction false} PathOfCut(p: string, c: char, rest: string)
    requires '?' !in p && '#' !in p && (c == '?' || c == '#')
    ensures PathOf(p + [c] + rest) == p
  {
    if p != [] {
      assert (p + [c] + rest)[1..] == p[1..] + [c] + rest;
      PathOfCut(p[1..], c, rest);
    }
  }

  /**
   * A route parameter as the router hands it to the page: percent-decoded, or as it stands when
   * an escape in it is malformed.
   */
  function RouterParam(segment: string): string {
    match DecodeURIComponent(segment)
    case Some(t) => t
    case None => segment
  }

  /** The one non-empty path segment after `prefix`, if the path is `prefix` and such a segment. */
  function SegmentAfter(path: string, prefix: string): Option<string> {
    if |path| > |prefix| && path[..|prefix|] == prefix && '/' !in path[|prefix|..] then Some(path[|prefix|..]) else None
  }

  /**
   * The item a link leads to under the routes `/album/:albumId`, `/artist/:artistName` and
   * `/playlist/:playlistId` of the hash router: the link's path must be one of the prefixes and
   * one non-empty segment, and the page receives that segment decoded.
   */
  function RouteOf(link: string): Option<(ItemType, string)> {
    var path := PathOf(link);
    match SegmentAfter(path, "/album/")
    case Some(id) => Some((ItemAlbum, RouterParam(id)))
    case None =>
      match SegmentAfter(path, "/artist/")
      case Some(name) => Some((ItemArtist, RouterParam(name)))
      case None =>
        match SegmentAfter(path, "/playlist/")
        case Some(id) => Some((ItemPlaylist, RouterParam(id)))
        case None => None
  }

  /** The router hands an artist's link back as the artist's name, whatever characters it holds. */
  lemma ArtistLinkRoundTrip(a: Artist)
    requires a.name != ""
    ensures RouteOf(ItemLink(ArtistItem(a))) == Some((ItemArtist, a.name))
  {
    var e := EncodeURIComponent(a.name);
    var link := "/artist/" + e;
    assert PathOf(link) == link;
    assert link[..8] == "/artist/" && link[8..] == e;
    assert link[..7] != "/album/" by {
      assert link[2] != "/album/"[2];
    }
    DecodeEncode(a.name);
  }

  /** An album's link leads back to it when its id holds none of `/`, `?`, `#` and `%`. */
  lemma AlbumLinkRoundTrip(a: Album)
    requires a.id != "" && '/' !in a.id && '?' !in a.id && '#' !in a.id && '%' !in a.id
    ensures RouteOf(ItemLink(AlbumItem(a))) == Some((ItemAlbum, a.id))
  {
    var link := "/album/" + a.id;
    assert PathOf(link) == link;
    assert link[..7] == "/album/" && link[7..] == a.id;
    DecodePlain(a.id);
  }

  /** An album link whose id holds a `/` (and no `?` or `#`) matches no route. */
  lemma SlashedAlbumLinkIsUnrouted(id: string)
    requires '/' in id && '?' !in id && '#' !in id
    ensures RouteOf("/album/" + id) == None
  {
    var link := "/album/" + id;
    assert PathOf(link) == link;
    assert link[..7] == "/album/" && link[7..] == id;
    assert link[..8] != "/artist/" by {
      assert link[2] != "/artist/"[2];
    }
    if |link| > 10 {
      assert link[..10][1] != "/playlist/"[1];
    }
  }

  /** An album link whose id holds a `?` routes to the text before it. */
  lemma QuestionMarkCutsAlbumLink(p: string, rest: string)
    requires p != "" && '/' !in p && '?' !in p && '#' !in p && '%' !in p
    ensures RouteOf("/album/" + p + "?" + rest) == Some((ItemAlbum, p))
  {
    var path := "/album/" + p;
    assert "/album/" + p + "?" + rest == path + ['?'] + rest;
    PathOfCut(path, '?', rest);
    assert path[..7] == "/album/" && path[7..] == p;
    DecodePlain(p);
  }

  /**
   * An album whose artist's name holds a `/` gets an id with a `/` in it, and its link then matches
   * no route: the album page cannot be reached from the card, the sidebar or the home page.
   */
  lemma AlbumLinkWithSlashIsUnrouted()
    ensures var a := Album("Back in Black-AC/DC", "Back in Black", "AC/DC", None, [], FullLength, 0, None);
      RouteOf(ItemLink(AlbumItem(a))) == None
  {
    var id := "Back in Black-AC/DC";
    assert id[16] == '/';
    SlashedAlbumLinkIsUnrouted(id);
  }

  /**
   * An album whose name holds a `?` gets a link whose path the router cuts at the `?`: the album
   * page is asked for an id that no album has.
   */
  lemma AlbumLinkWithQuestionMarkIsCut()
    ensures var a := Album("What's Going On?-Marvin Gaye", "What's Going On?", "Marvin Gaye", None, [], FullLength, 0, None);
      RouteOf(ItemLink(AlbumItem(a))) == Some((ItemAlbum, "What's Going On"))
  {
    var a := Album("What's Going On?-Marvin Gaye", "What's Going On?", "Marvin Gaye", None, [], FullLength, 0, None);
    var p, rest := "What's Going On", "-Marvin Gaye";
    assert ItemLink(AlbumItem(a)) == "/album/" + a.id;
    assert a.id == p + "?" + rest;
    assert '/' !in p && '?' !in p && '#' !in p && '%' !in p;
    QuestionMarkCutsAlbumLink(p, rest);
    assert "/album/" + a.id == "/album/" + p + "?" + rest;
  }

  /** The link with every kind's segment encoded, as the artist link already is. */
  function EncodedItemLink(item: LibraryItem): string {
    var id := ItemId(item);
    match ItemTypeOf(item)
    case ItemAlbum => "/album/" + EncodeURIComponent(id)
    case ItemArtist => "/artist/" + EncodeURIComponent(id)
    case ItemPlaylist => "/playlist/" + EncodeURIComponent(id)
  }

  /** With every segment encoded, each item's link leads back to its kind and key, whatever the key holds. */
  lemma EncodedLinkRoundTrip(item: LibraryItem)
    requires ItemId(item) != ""
    ensures RouteOf(EncodedItemLink(item)) == Some((ItemTypeOf(item), ItemId(item)))
  {
    var e := EncodeURIComponent(ItemId(item));
    DecodeEncode(ItemId(item));
    var link := EncodedItemLink(item);
    assert PathOf(link) == link;
    match ItemTypeOf(item)
    case ItemAlbum =>
      assert link[..7] == "/album/" && link[7..] == e;
    case ItemArtist =>
      assert link[..8] == "/artist/" && link[8..] == e;
      assert link[..7] != "/album/" by {
        assert link[2] != "/album/"[2];
      }
    case ItemPlaylist =>
      assert link[..10] == "/playlist/" && link[10..] == e;
      assert link[..7] != "/album/" by {
        assert link[1] != "/album/"[1];
      }
      assert link[..8] != "/artist/" by {
        assert link[1] != "/artist/"[1];
      }
  }

  // ---------------------------------------------------------------- filter and pinned-first order

  function AsAlbumItem(a: Album): LibraryItem {
    AlbumItem(a)
  }

  function AsArtistItem(a: Artist): LibraryItem {
    ArtistItem(a)
  }

  function AsPlaylistItem(p: Playlist): LibraryItem {
    PlaylistItem(p)
  }

  /** The filter state: `None` for `all`, else the one kind shown. */
  type LibraryFilter = Option<ItemType>

  /** `filteredItems`' choice of items: all of them (playlists, then albums, then artists), or one kind. */
  function ItemsFor(filter: LibraryFilter, playlists: seq<Playlist>, albums: seq<Album>, artists: seq<Artist>): seq<LibraryItem> {
    match filter
    case None => Map(playlists, AsPlaylistItem) + Map(albums, AsAlbumItem) + Map(artists, AsArtistItem)
    case Some(ItemPlaylist) => Map(playlists, AsPlaylistItem)
    case Some(ItemArtist) => Map(artists, AsArtistItem)
    case Some(ItemAlbum) => Map(albums, AsAlbumItem)
  }

  function OfKind(k: ItemType): LibraryItem -> bool {
    (item: LibraryItem) => ItemTypeOf(item) == k
  }

  /** Choosing one kind shows exactly what `all` shows of that kind, in the same order. */
  lemma FilterIsAllOfKind(k: ItemType, playlists: seq<Playlist>, albums: seq<Album>, artists: seq<Artist>)
    ensures ItemsFor(Some(k), playlists, albums, artists) == Filter(ItemsFor(None, playlists, albums, artists), OfKind(k))
  {
    match k
    case ItemPlaylist => OnlyPlaylists(playlists, albums, artists);
    case ItemAlbum => OnlyAlbums(playlists, albums, artists);
    case ItemArtist => OnlyArtists(playlists, albums, artists);
  }

  /** The playlist filter keeps exactly the playlist cards. */
  lemma OnlyPlaylists(playlists: seq<Playlist>, albums: seq<Album>, artists: seq<Artist>)
    ensures Filter(ItemsFor(None, playlists, albums, artists), OfKind(ItemPlaylist)) == Map(playlists, AsPlaylistItem)
  {
    var p, al, ar := Map(playlists, AsPlaylistItem), Map(albums, AsAlbumItem), Map(artists, AsArtistItem);
    FilterOfThree(p, al, ar, OfKind(ItemPlaylist));
    KindFilter(ItemPlaylist, p, ItemPlaylist);
    KindFilter(ItemPlaylist, al, ItemAlbum);
    KindFilter(ItemPlaylist, ar, ItemArtist);
    assert p + [] + [] == p;
  }

  /** The album filter keeps exactly the album cards. */
  lemma OnlyAlbums(playlists: seq<Playlist>, albums: seq<Album>, artists: seq<Artist>)
    ensures Filter(ItemsFor(None, playlists, albums, artists), OfKind(ItemAlbum)) == Map(albums, AsAlbumItem)
  {
    var p, al, ar := Map(playlists, AsPlaylistItem), Map(albums, AsAlbumItem), Map(artists, AsArtistItem);
    FilterOfThree(p, al, ar, OfKind(ItemAlbum));
    KindFilter(ItemAlbum, p, ItemPlaylist);
    KindFilter(ItemAlbum, al, ItemAlbum);
    KindFilter(ItemAlbum, ar, ItemArtist);
    assert [] + al + [] == al;
  }

  /** The artist filter keeps exactly the artist cards. */
  lemma OnlyArtists(playlists: seq<Playlist>, albums: seq<Album>, artists: seq<Artist>)
    ensures Filter(ItemsFor(None, playlists, albums, artists), OfKind(ItemArtist)) == Map(artists, AsArtistItem)
  {
    var p, al, ar := Map(playlists, AsPlaylistItem), Map(albums, AsAlbumItem), Map(artists, AsArtistItem);
    FilterOfThree(p, al, ar, OfKind(ItemArtist));
    KindFilter(ItemArtist, p, ItemPlaylist);
    KindFilter(ItemArtist, al, ItemAlbum);
    KindFilter(ItemArtist, ar, ItemArtist);
    assert [] + [] + ar == ar;
  }

  lemma KindFilter(k: ItemType, items: seq<LibraryItem>, own: ItemType)
    requires forall i :: 0 <= i < |items| ==> ItemTypeOf(items[i]) == own
    ensures Filter(items, OfKind(k)) == if k == own then items else []
  {
    if k == own {
      FilterKeepsAll(items, OfKind(k));
    } else {
      FilterKeepsNone(items, OfKind(k));
    }
  }

  function IsPinned(pinnedItems: set<string>): LibraryItem -> bool {
    (item: LibraryItem) => ItemId(item) in pinnedItems
  }

  /** `[...pinned, ...unpinned]`. */
  function PinnedFirst(items: seq<LibraryItem>, pinnedItems: set<string>): seq<LibraryItem> {
    Filter(items, IsPinned(pinnedItems)) + Filter(items, Not(IsPinned(pinnedItems)))
  }

  /**
   * The pinned-first order is a stable partition: the same items as often as before, every pinned
   * item ahead of every unpinned one, and each group in the order of the input.
   */
  lemma PinnedFirstIsStablePartition(items: seq<LibraryItem>, pinnedItems: set<string>)
    ensures var r := PinnedFirst(items, pinnedItems); var p := IsPinned(pinnedItems);
      && |r| == |items| && multiset(r) == multiset(items)
      && (forall i, j :: 0 <= i < j < |r| && p(r[j]) ==> p(r[i]))
      && Filter(r, p) == Filter(items, p)
      && Filter(r, Not(p)) == Filter(items, Not(p))
  {
    PartitionIsStable(items, IsPinned(pinnedItems));
  }

  /** `filteredItems`. */
  function FilteredItems(filter: LibraryFilter, playlists: seq<Playlist>, albums: seq<Album>, artists: seq<Artist>,
                         pinnedItems: set<string>): seq<LibraryItem> {
    PinnedFirst(ItemsFor(filter, playlists, albums, artists), pinnedItems)
  }

  /** The filter value of a button caption: `f.slice(0, -1).toLowerCase()`, or `all`. */
  function FilterValue(caption: string): string {
    if caption == "all" then "all"
    else
      var n := if |caption| == 0 then 0 else |caption| - 1;
      ToLower(caption[..n])
  }

  function KindName(k: ItemType): string {
    match k
    case ItemAlbum => "album"
    case ItemArtist => "artist"
    case ItemPlaylist => "playlist"
  }

  /** The filter a value selects: `all`, one of the three kind names, or (for any other value) nothing. */
  function FilterOfValue(value: string): Option<LibraryFilter> {
    if value == "all" then Some(None)
    else if value == "playlist" then Some(Some(ItemPlaylist))
    else if value == "artist" then Some(Some(ItemArtist))
    else if value == "album" then Some(Some(ItemAlbum))
    else None
  }

  /** The four buttons `all`, `Playlists`, `Artists` and `Albums` select the four filters. */
  lemma ButtonsSelectFilters()
    ensures FilterOfValue(FilterValue("all")) == Some(None)
    ensures FilterValue("Playlists") == KindName(ItemPlaylist) && FilterOfValue(FilterValue("Playlists")) == Some(Some(ItemPlaylist))
    ensures FilterValue("Artists") == KindName(ItemArtist) && FilterOfValue(FilterValue("Artists")) == Some(Some(ItemArtist))
    ensures FilterValue("Albums") == KindName(ItemAlbum) && FilterOfValue(FilterValue("Albums")) == Some(Some(ItemAlbum))
  {
    assert ToLower("Playlist") == "playlist";
    assert ToLower("Artist") == "artist";
    assert ToLower("Album") == "album";
  }
}
