/**
 * The artist page (`pages/ArtistView.tsx`): the artist named by the decoded route segment, its five
 * popular songs, its releases split into albums and singles/EPs, and the play button.
 */
module ArtistView {
  import opened Optional
  import opened Types
  import opened Seqs
  import opened JsText
  import opened Uri
  import opened MusicContext
  import opened ItemCard
  import opened LibraryItems

  /** What the route renders. */
  datatype Page =
    | RedirectHome
    /** `decodeURIComponent` throws on a malformed escape; the page does not render. */
    | MalformedName
    | ArtistNotFound
    | ArtistPage(artist: Artist, topSongs: seq<Song>, albumsOnly: seq<Album>, singlesAndEps: seq<Album>)

  /** Whether an artist has the given name. */
  function Named(name: string): Artist -> bool {
    (a: Artist) => a.name == name
  }

  /** The "Albums" shelf: full-length albums and mixtapes. */
  function IsLongForm(a: Album): bool {
    a.kind == FullLength || a.kind == Mixtape
  }

  /** The "Singles & EPs" shelf. */
  function IsShortForm(a: Album): bool {
    a.kind == Single || a.kind == EP
  }

  /**
   * The page for the route parameter `artistName`, which the router has already decoded: none or
   * empty sends the user home; otherwise the parameter is decoded a second time and the first
   * artist with exactly that name is shown, with its first five songs and its releases on two
   * shelves.
   */
  function PageFor(artistName: Option<string>, artists: seq<Artist>): (r: Page)
    ensures r.RedirectHome? <==> !Truthy(artistName)
    ensures r.MalformedName? <==> Truthy(artistName) && DecodeURIComponent(artistName.value).None?
    ensures r.ArtistNotFound? <==> (Truthy(artistName) && DecodeURIComponent(artistName.value).Some?
      && forall a :: a in artists ==> a.name != DecodeURIComponent(artistName.value).value)
    ensures r.ArtistPage? ==> (Truthy(artistName) && DecodeURIComponent(artistName.value).Some?
      && r == NamedPage(DecodeURIComponent(artistName.value).value, artists))
  {
    if !Truthy(artistName) then RedirectHome
    else
      match DecodeURIComponent(artistName.value)
      case None => MalformedName
      case Some(name) => NamedPage(name, artists)
  }

  /** The page of the first artist named exactly `name`, or not found. */
  function NamedPage(name: string, artists: seq<Artist>): (r: Page)
    ensures r.ArtistNotFound? || r.ArtistPage?
    ensures r.ArtistNotFound? <==> forall a :: a in artists ==> a.name != name
    ensures r.ArtistPage? ==> (r.artist.name == name
      && (exists j :: 0 <= j < |artists| && artists[j] == r.artist
            && forall k :: 0 <= k < j ==> artists[k].name != name)
      && r.topSongs == Take(r.artist.songs, 5)
      && r.albumsOnly == Filter(r.artist.albums, IsLongForm)
      && r.singlesAndEps == Filter(r.artist.albums, IsShortForm))
  {
    match Find(artists, Named(name))
    case None => ArtistNotFound
    case Some(a) =>
      ArtistPage(a, Take(a.songs, 5), Filter(a.albums, IsLongForm), Filter(a.albums, IsShortForm))
  }

  /** The page with the router's parameter used as it comes, without the second decode. */
  function DecodedOncePageFor(artistName: Option<string>, artists: seq<Artist>): (r: Page)
    ensures r.RedirectHome? <==> !Truthy(artistName)
    ensures !r.MalformedName?
    ensures Truthy(artistName) ==> r == NamedPage(artistName.value, artists)
  {
    if !Truthy(artistName) then RedirectHome else NamedPage(artistName.value, artists)
  }

  /** Popular is the artist's first five songs, in order (all of them when there are fewer). */
  lemma PopularIsFirstFive(artist: Artist)
    ensures |Take(artist.songs, 5)| == if |artist.songs| < 5 then |artist.songs| else 5
    ensures Take(artist.songs, 5) + Drop(artist.songs, 5) == artist.songs
  {
  }

  /**
   * The two shelves split the releases: every release is on exactly one of them, each keeps the
   * releases' order, and together they hold every release once.
   */
  lemma ShelvesPartitionReleases(albums: seq<Album>)
    ensures IsSubseq(Filter(albums, IsLongForm), albums) && IsSubseq(Filter(albums, IsShortForm), albums)
    ensures forall a :: a in albums ==> (a in Filter(albums, IsLongForm) <==> a !in Filter(albums, IsShortForm))
    ensures multiset(Filter(albums, IsLongForm) + Filter(albums, IsShortForm)) == multiset(albums)
  {
    FilterIsSubseq(albums, IsLongForm);
    FilterIsSubseq(albums, IsShortForm);
    FilterSame(albums, IsShortForm, Not(IsLongForm));
    PartitionPermutes(albums, IsLongForm);
  }

  /** The page header: `{albums} Releases · {songs} Songs`. */
  function Header(artist: Artist): string {
    NatToString(|artist.albums|) + " Releases" + Dot + NatToString(|artist.songs|) + " Songs"
  }

  /** The header starts with the release count, read back as a number. */
  lemma HeaderCountsReleases(artist: Artist)
    ensures ParseInt(Header(artist)) == Some(|artist.albums|)
  {
    var n := NatToString(|artist.albums|);
    assert Header(artist) == n + (" Releases" + Dot + NatToString(|artist.songs|) + " Songs");
    ParseIntDigits(n, " Releases" + Dot + NatToString(|artist.songs|) + " Songs");
    NatToStringValue(|artist.albums|);
  }

  /** The parameter the router hands the artist page for an artist's link: the name itself. */
  function LinkParam(a: Artist): string {
    var route := RouteOf(ItemLink(ArtistItem(a)));
    if route.Some? then route.value.1 else ""
  }

  lemma LinkParamIsName(a: Artist)
    requires a.name != ""
    ensures LinkParam(a) == a.name
  {
    ArtistLinkRoundTrip(a);
  }

  /**
   * An artist card's link opens the first artist with that name, as long as the name holds no
   * `%`: the page decodes the router's already decoded parameter once more.
   */
  lemma ArtistLinkOpensArtist(artists: seq<Artist>, j: nat)
    requires j < |artists| && artists[j].name != "" && '%' !in artists[j].name
    requires forall k :: 0 <= k < j ==> artists[k].name != artists[j].name
    ensures PageFor(Some(LinkParam(artists[j])), artists).ArtistPage?
    ensures PageFor(Some(LinkParam(artists[j])), artists).artist == artists[j]
  {
    var name := artists[j].name;
    LinkParamIsName(artists[j]);
    DecodePlain(name);
    NamedPageIs(artists, j);
  }

  /** The first artist with its name gets its own page. */
  lemma NamedPageIs(artists: seq<Artist>, j: nat)
    requires j < |artists|
    requires forall k :: 0 <= k < j ==> artists[k].name != artists[j].name
    ensures NamedPage(artists[j].name, artists).ArtistPage? && NamedPage(artists[j].name, artists).artist == artists[j]
  {
    var name := artists[j].name;
    var r := NamedPage(name, artists);
    assert artists[j] in artists;
    var i :| 0 <= i < |artists| && artists[i] == r.artist && forall k :: 0 <= k < i ==> artists[k].name != name;
    assert artists[i].name == name;
  }

  /** A `%` followed by anything but a hexadecimal digit makes `decodeURIComponent` throw. */
  lemma {:induction false} BadEscapeThrows(p: string, rest: string)
    requires '%' !in p && rest != [] && HexValue(rest[0]).None?
    ensures DecodeURIComponent(p + ['%'] + rest) == None
  {
    var s := p + ['%'] + rest;
    if p == [] {
      assert s == ['%'] + rest && s[1] == rest[0];
      assert ReadEscape(s, 0).None?;
    } else {
      assert s[1..] == p[1..] + ['%'] + rest;
      assert '%' !in p[1..] by {
        assert forall c :: c in p[1..] ==> c in p;
      }
      BadEscapeThrows(p[1..], rest);
    }
  }

  /**
   * The artist "50% Off": the router hands the page "50% Off", whose second decode throws, so
   * the page of an artist in the library never renders.
   */
  lemma PercentNameBreaksPage(a: Artist)
    requires a.name == "50% Off"
    ensures LinkParam(a) == "50% Off"
    ensures PageFor(Some(LinkParam(a)), [a]).MalformedName?
  {
    LinkParamIsName(a);
    assert "50% Off" == "50" + ['%'] + " Off";
    BadEscapeThrows("50", " Off");
  }

  /** Without the second decode, every artist card's link opens the first artist with that name. */
  lemma DecodedOnceLinkOpensArtist(artists: seq<Artist>, j: nat)
    requires j < |artists| && artists[j].name != ""
    requires forall k :: 0 <= k < j ==> artists[k].name != artists[j].name
    ensures DecodedOncePageFor(Some(LinkParam(artists[j])), artists).ArtistPage?
    ensures DecodedOncePageFor(Some(LinkParam(artists[j])), artists).artist == artists[j]
  {
    LinkParamIsName(artists[j]);
    NamedPageIs(artists, j);
  }

  /** `handlePlayArtist`: the artist's first song plays with all its songs queued; with none, nothing happens. */
  method PlayArtist(engine: MusicEngine, artist: Artist, now: int, audioStarts: bool, draws: seq<nat>,
                    fetched: Option<LyricsData>, writeSucceeds: bool)
    modifies engine, engine.lyricsStore
    ensures artist.songs == [] ==> engine.State() == old(engine.State())
    ensures artist.songs != [] ==>
      engine.State() == Played(old(engine.State()), artist.songs[0], artist.songs, now, audioStarts, draws, fetched, writeSucceeds)
  {
    if |artist.songs| > 0 {
      engine.PlaySong(artist.songs[0], artist.songs, now, audioStarts, draws, fetched, writeSucceeds);
    }
  }
}
