/**
 * The home page (`pages/Home.tsx`): the greeting, the quick links to recently opened items, the
 * "Made for You" smart playlists, the top artists, and the background colour taken from the
 * current song's cover.
 */
module Home {
  import opened Optional
  import opened Types
  import opened Seqs
  import opened LibraryModel
  import opened LibraryItems
  import opened MusicContext
  import opened ItemCard
  import SmartPlaylists
  import PlaylistView

  /** `getGreeting` for the local hour of the day. */
  function Greeting(hour: int): (r: string)
    ensures r == "Good morning" <==> hour < 12
    ensures r == "Good afternoon" <==> 12 <= hour < 18
    ensures r == "Good evening" <==> 18 <= hour
  {
    if hour < 12 then "Good morning" else if hour < 18 then "Good afternoon" else "Good evening"
  }

  /** Over a day's hours the greeting changes twice: at noon and at six in the evening. */
  lemma GreetingChangesTwice(hour: int)
    requires 0 <= hour < 23
    ensures Greeting(hour) != Greeting(hour + 1) <==> hour == 11 || hour == 17
  {
  }

  // ---------------------------------------------------------------- quick links

  /** `getItemById(item.type, item.id)` for a recent entry. */
  function Lookup(e: EngineState, item: RecentItem): Option<LibraryItem> {
    GetItemById(e, item.kind, item.id)
  }

  /**
   * `recentItems.map(item => getItemById(item.type, item.id)).filter(item => item !== undefined)`:
   * the recent entries that still resolve, in the order they were recorded.
   */
  function Resolved(e: EngineState, items: seq<RecentItem>): (r: seq<LibraryItem>)
    ensures |r| <= |items|
  {
    if items == [] then []
    else
      var head := Lookup(e, items[0]);
      (if head.Some? then [head.value] else []) + Resolved(e, items[1..])
  }

  /** The quick links are exactly the items some recent entry resolves to. */
  lemma {:induction false} ResolvedMembers(e: EngineState, items: seq<RecentItem>, x: LibraryItem)
    ensures x in Resolved(e, items) <==> exists i :: 0 <= i < |items| && Lookup(e, items[i]) == Some(x)
  {
    if items != [] {
      ResolvedMembers(e, items[1..], x);
      if x in Resolved(e, items[1..]) {
        var i :| 0 <= i < |items[1..]| && Lookup(e, items[1..][i]) == Some(x);
        assert items[i + 1] == items[1..][i];
      }
      if exists i :: 0 <= i < |items| && Lookup(e, items[i]) == Some(x) {
        var i :| 0 <= i < |items| && Lookup(e, items[i]) == Some(x);
        if i > 0 {
          assert items[1..][i - 1] == items[i];
        }
      }
    }
  }

  /** When every recent entry resolves, the list is their items one for one, in the same order. */
  lemma {:induction false} ResolvedKeepsOrder(e: EngineState, items: seq<RecentItem>)
    requires forall i :: 0 <= i < |items| ==> Lookup(e, items[i]).Some?
    ensures |Resolved(e, items)| == |items|
    ensures forall i :: 0 <= i < |items| ==> Resolved(e, items)[i] == Lookup(e, items[i]).value
  {
    if items != [] {
      ResolvedKeepsOrder(e, items[1..]);
    }
  }

  /** Entries that no longer resolve are skipped without disturbing the rest. */
  lemma ResolvedSkips(e: EngineState, items: seq<RecentItem>, gone: RecentItem)
    requires Lookup(e, gone).None?
    ensures Resolved(e, [gone] + items) == Resolved(e, items)
  {
    assert ([gone] + items)[1..] == items;
  }

  /** The quick-link grid: the first six resolved recent items. */
  function QuickLinks(e: EngineState): (r: seq<LibraryItem>)
    ensures |r| <= 6 && |r| <= |Resolved(e, e.user.recentItems)|
    ensures r == Resolved(e, e.user.recentItems)[..|r|]
    ensures |Resolved(e, e.user.recentItems)| >= 6 ==> |r| == 6
    ensures |r| == if |Resolved(e, e.user.recentItems)| < 6 then |Resolved(e, e.user.recentItems)| else 6
  {
    Take(Resolved(e, e.user.recentItems), 6)
  }

  /** The quick-link card's link: the same route as an item card's. */
  function QuickLink(item: LibraryItem): (r: string)
    ensures item.ArtistItem? ==> r == "/artist/" + Uri.EncodeURIComponent(item.artist.name)
    ensures item.AlbumItem? ==> r == "/album/" + item.album.id
    ensures item.PlaylistItem? ==> r == "/playlist/" + item.playlist.id
  {
    ItemLink(item)
  }

  /** The quick-link card's kind test: `type` present makes an album, else `albums` an artist, else a playlist. */
  function QuickLinkType(item: LibraryItem): (r: ItemType)
  {
    if HasField(item, "type") then ItemAlbum else if HasField(item, "albums") then ItemArtist else ItemPlaylist
  }

  /** The quick-link card's shorter kind test agrees with the item card's on every item. */
  lemma QuickLinkTypeAgrees(item: LibraryItem)
    ensures QuickLinkType(item) == ItemTypeOf(item)
  {
  }

  /** The quick-link card's play button: the same songs as an item card's, started the same way. */
  method QuickPlay(engine: MusicEngine, item: LibraryItem, now: int, audioStarts: bool, draws: seq<nat>,
                   fetched: Option<LyricsData>, writeSucceeds: bool)
    modifies engine, engine.lyricsStore
    ensures var list := SongsToPlay(item, SongsOf(old(engine.State())));
      engine.State() ==
        if list == [] then old(engine.State())
        else Played(old(engine.State()), list[0], list, now, audioStarts, draws, fetched, writeSucceeds)
  {
    HandlePlay(engine, item, now, audioStarts, draws, fetched, writeSucceeds);
  }

  // ---------------------------------------------------------------- smart playlists

  /**
   * The navigation state a smart-playlist card hands to the playlist page: its songs, name,
   * description and gradient; the id is not passed.
   */
  function CardState(p: SmartPlaylist): (r: SmartPlaylist)
    ensures r.songs == p.songs && r.name == p.name && r.description == p.description && r.gradient == p.gradient
  {
    SmartPlaylist("", p.name, p.description, p.songs, p.gradient)
  }

  /** The gradient class on a smart-playlist card: its own, or zinc when it has none. */
  function CardGradient(p: SmartPlaylist): (r: string)
    ensures Truthy(p.gradient) ==> r == p.gradient.value
    ensures !Truthy(p.gradient) ==> r == "from-zinc-700 to-zinc-800"
  {
    if Truthy(p.gradient) then p.gradient.value else "from-zinc-700 to-zinc-800"
  }

  /**
   * Opening a smart-playlist card shows its name, songs and description, and the page's background
   * is the colour of the card's gradient.
   */
  lemma CardOpensPlaylist(p: SmartPlaylist, playlists: seq<Playlist>, songs: seq<Song>, likedSongs: set<string>)
    requires Truthy(p.gradient)
    ensures var page := PlaylistView.PageFor(p.id, Some(CardState(p)), playlists, songs, likedSongs);
      page.Shown? && page.title == p.name && page.songs == p.songs && page.description == p.description
      && PlaylistView.BackgroundColour(page, None) == PlaylistView.GradientColour(CardGradient(p))
  {
  }

  /** The smart-playlist card's play button. */
  method PlaySmartPlaylist(engine: MusicEngine, p: SmartPlaylist, now: int, audioStarts: bool, draws: seq<nat>,
                           fetched: Option<LyricsData>, writeSucceeds: bool)
    modifies engine, engine.lyricsStore
    ensures p.songs == [] ==> engine.State() == old(engine.State())
    ensures p.songs != [] ==>
      engine.State() == Played(old(engine.State()), p.songs[0], p.songs, now, audioStarts, draws, fetched, writeSucceeds)
  {
    if |p.songs| > 0 {
      engine.PlaySong(p.songs[0], p.songs, now, audioStarts, draws, fetched, writeSucceeds);
    }
  }

  // ---------------------------------------------------------------- top artists

  /** "Your Top Artists": a sorted copy of the artists, most played first, cut to six. */
  function TopArtists(artists: seq<Artist>): (r: seq<Artist>)
    ensures |r| == if |artists| < 6 then |artists| else 6
    ensures forall i, j :: 0 <= i < j < |r| ==> r[j].playCount <= r[i].playCount
    ensures multiset(r) <= multiset(artists)
  {
    var ranked := SortByKey(artists, SmartPlaylists.ArtistMostPlayedFirst);
    var r := Take(ranked, 6);
    assert ranked == r + ranked[|r|..];
    assert multiset(ranked) == multiset(r) + multiset(ranked[|r|..]);
    forall i, j | 0 <= i < j < |r| ensures r[j].playCount <= r[i].playCount {
      assert !KeyLt(SmartPlaylists.ArtistMostPlayedFirst(ranked[j]), SmartPlaylists.ArtistMostPlayedFirst(ranked[i]));
    }
    r
  }

  /** Every artist left off the shelf has been played no more than every artist on it. */
  lemma TopArtistsAreTop(artists: seq<Artist>)
    ensures var ranked := SortByKey(artists, SmartPlaylists.ArtistMostPlayedFirst);
      multiset(TopArtists(artists)) + multiset(Drop(ranked, 6)) == multiset(artists)
      && forall x, y :: x in TopArtists(artists) && y in Drop(ranked, 6) ==> y.playCount <= x.playCount
  {
    var key := SmartPlaylists.ArtistMostPlayedFirst;
    var ranked := SortByKey(artists, key);
    SortedCut(ranked, key, 6);
    assert ranked == TopArtists(artists) + Drop(ranked, 6);
    forall x, y | x in TopArtists(artists) && y in Drop(ranked, 6) ensures y.playCount <= x.playCount {
      assert !KeyLt(key(y), key(x));
    }
  }

  // ---------------------------------------------------------------- the page

  /** What the home page shows. */
  datatype Page =
    | Welcome
    | HomePage(greeting: string, quickLinks: seq<LibraryItem>, madeForYou: seq<SmartPlaylist>, topArtists: seq<Artist>)

  /**
   * The page for a state: with no songs the welcome screen; otherwise the greeting, the quick links,
   * "Made for You" when AI is on and there are smart playlists, and the top artists.
   */
  function PageFor(e: EngineState, hour: int, smart: seq<SmartPlaylist>): (r: Page)
    ensures r.Welcome? <==> SongsOf(e) == []
    ensures r.HomePage? ==> (r.greeting == Greeting(hour) && r.quickLinks == QuickLinks(e)
      && r.topArtists == TopArtists(ArtistsIn(e))
      && (r.madeForYou != [] <==> e.user.isAIEnabled && smart != [])
      && (r.madeForYou != [] ==> r.madeForYou == smart))
  {
    if SongsOf(e) == [] then Welcome
    else HomePage(Greeting(hour), QuickLinks(e), if e.user.isAIEnabled then smart else [], TopArtists(ArtistsIn(e)))
  }

  /**
   * Rendering the page: with songs, the smart playlists are built (which may sort the artists memo
   * in place) before the top-artist shelf copies and sorts it.
   */
  method Render(engine: MusicEngine, hour: int, now: int, draws: string -> seq<nat>) returns (page: Page)
    modifies engine`lib
    ensures SongsOf(old(engine.State())) == [] ==> page.Welcome? && engine.State() == old(engine.State())
    ensures SongsOf(old(engine.State())) != [] ==>
      engine.State() == SmartBuilt(old(engine.State()))
      && page == PageFor(engine.State(), hour, SmartPlaylists.SmartPlaylists(SongsOf(old(engine.State())),
           ArtistsIn(old(engine.State())), engine.user.isAIEnabled, now, hour, draws))
  {
    var e := engine.State();
    if SongsOf(e) == [] {
      return Welcome;
    }
    var smart := engine.GetSmartPlaylists(now, hour, draws);
    page := PageFor(engine.State(), hour, smart);
  }

  /** With AI on and songs in the library, "Made for You" lists the smart playlists exactly. */
  lemma MadeForYouIsSmartList(e: EngineState, hour: int, now: int, draws: string -> seq<nat>)
    requires SongsOf(e) != [] && e.user.isAIEnabled
    ensures var smart := SmartPlaylists.SmartPlaylists(SongsOf(e), ArtistsIn(e), true, now, hour, draws);
      PageFor(e, hour, smart).madeForYou == smart
  {
  }

  // ---------------------------------------------------------------- background

  /** The home page's background: the current song's cover colour (`extracted`, `None` on failure), else `#121212`. */
  function Background(currentSong: Option<Song>, extracted: Option<string>): (r: string)
    ensures currentSong.Some? && Truthy(currentSong.value.coverArt) ==> r == extracted.GetOr("#121212")
    ensures currentSong.None? || !Truthy(currentSong.value.coverArt) ==> r == "#121212"
  {
    if currentSong.Some? && Truthy(currentSong.value.coverArt) then extracted.GetOr("#121212") else "#121212"
  }
}
