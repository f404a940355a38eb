/**
 * The search page (`pages/Search.tsx`): a query is lower-cased and looked for as a substring of the
 * lower-cased text fields of every song, album, artist and playlist. The best hit shown as a card is
 * the first matching artist, else album, else playlist, never a song; four songs are listed beside
 * it and the rest under "More Songs".
 */
module Search {
  import opened Optional
  import opened Types
  import opened Seqs
  import opened JsText

  /** `field.toLowerCase().includes(lowerCaseQuery)`. */
  predicate Matches(field: string, lowerQuery: string) {
    Includes(ToLower(field), lowerQuery)
  }

  function SongMatches(lowerQuery: string): Song -> bool {
    (s: Song) => Matches(s.title, lowerQuery) || Matches(s.artist, lowerQuery) || Matches(s.album, lowerQuery)
  }

  function AlbumMatches(lowerQuery: string): Album -> bool {
    (a: Album) => Matches(a.name, lowerQuery) || Matches(a.artist, lowerQuery)
  }

  function ArtistMatches(lowerQuery: string): Artist -> bool {
    (a: Artist) => Matches(a.name, lowerQuery)
  }

  function PlaylistMatches(lowerQuery: string): Playlist -> bool {
    (p: Playlist) => Matches(p.name, lowerQuery)
  }

  datatype Results = Results(songs: seq<Song>, albums: seq<Album>, artists: seq<Artist>, playlists: seq<Playlist>)

  /**
   * `results`: nothing for the empty query; otherwise, for each collection, exactly its entries that
   * match, in the collection's order.
   */
  function SearchResults(query: string, songs: seq<Song>, albums: seq<Album>, artists: seq<Artist>,
                         playlists: seq<Playlist>): (r: Option<Results>)
    ensures r.None? <==> query == ""
    ensures r.Some? ==> var q := ToLower(query);
      && (forall s :: s in r.value.songs <==> s in songs && (Matches(s.title, q) || Matches(s.artist, q) || Matches(s.album, q)))
      && (forall a :: a in r.value.albums <==> a in albums && (Matches(a.name, q) || Matches(a.artist, q)))
      && (forall a :: a in r.value.artists <==> a in artists && Matches(a.name, q))
      && (forall p :: p in r.value.playlists <==> p in playlists && Matches(p.name, q))
    ensures r.Some? ==>
      && IsSubseq(r.value.songs, songs) && IsSubseq(r.value.albums, albums)
      && IsSubseq(r.value.artists, artists) && IsSubseq(r.value.playlists, playlists)
  {
    if query == "" then None
    else
      var q := ToLower(query);
      FilterIsSubseq(songs, SongMatches(q));
      FilterIsSubseq(albums, AlbumMatches(q));
      FilterIsSubseq(artists, ArtistMatches(q));
      FilterIsSubseq(playlists, PlaylistMatches(q));
      Some(Results(Filter(songs, SongMatches(q)), Filter(albums, AlbumMatches(q)),
                   Filter(artists, ArtistMatches(q)), Filter(playlists, PlaylistMatches(q))))
  }

  /** `topResult`. */
  function TopResult(results: Option<Results>): Option<LibraryItem> {
    if results.None? then None
    else if |results.value.artists| > 0 then Some(ArtistItem(results.value.artists[0]))
    else if |results.value.albums| > 0 then Some(AlbumItem(results.value.albums[0]))
    else if |results.value.playlists| > 0 then Some(PlaylistItem(results.value.playlists[0]))
    else None
  }

  /**
   * The top result is the first artist, in the order of the artists list (which Artist Spotlight
   * may have sorted by plays in place), whose name matches, else the first matching album, else the
   * first matching playlist; matching songs never make one.
   */
  lemma TopResultIsFirstMatch(query: string, songs: seq<Song>, albums: seq<Album>, artists: seq<Artist>,
                              playlists: seq<Playlist>)
    ensures var q := ToLower(query);
      var ar := Find(artists, ArtistMatches(q));
      var al := Find(albums, AlbumMatches(q));
      var pl := Find(playlists, PlaylistMatches(q));
      TopResult(SearchResults(query, songs, albums, artists, playlists)) ==
        if query == "" then None
        else if ar.Some? then Some(ArtistItem(ar.value))
        else if al.Some? then Some(AlbumItem(al.value))
        else if pl.Some? then Some(PlaylistItem(pl.value))
        else None
  {
    var q := ToLower(query);
    FilterFirstIsFind(artists, ArtistMatches(q));
    FilterFirstIsFind(albums, AlbumMatches(q));
    FilterFirstIsFind(playlists, PlaylistMatches(q));
  }

  /** `topSongResults`: the first four matching songs, none without a query. */
  function TopSongs(results: Option<Results>): (r: seq<Song>)
    ensures results.None? ==> r == []
    ensures results.Some? ==>
      |r| == (if |results.value.songs| < 4 then |results.value.songs| else 4) && r == results.value.songs[..|r|]
  {
    if results.None? then [] else Take(results.value.songs, 4)
  }

  /** The "More Songs" list: the matches from the fifth on, shown only when there are more than four. */
  function MoreSongs(results: Option<Results>): Option<seq<Song>> {
    if results.Some? && |results.value.songs| > 4 then Some(results.value.songs[4..]) else None
  }

  /** The two song lists together show every matching song once, in order. */
  lemma SongListsCoverMatches(results: Option<Results>)
    requires results.Some?
    ensures MoreSongs(results).Some? <==> |results.value.songs| > 4
    ensures TopSongs(results) + MoreSongs(results).GetOr([]) == results.value.songs
  {
    var s := results.value.songs;
    if |s| > 4 {
      assert s == s[..4] + s[4..];
    }
  }

  /** Whether the page says "No results found": a query is typed but there is neither a top result nor a top song. */
  predicate ShowsNoResults(query: string, results: Option<Results>) {
    query != "" && !(results.Some? && (TopResult(results).Some? || |TopSongs(results)| > 0))
  }

  /** "No results found" appears exactly when a query is typed and nothing at all matches it. */
  lemma {:induction false} NoResultsIffNothingMatches(query: string, songs: seq<Song>, albums: seq<Album>,
                                                      artists: seq<Artist>, playlists: seq<Playlist>)
    ensures var q := ToLower(query);
      ShowsNoResults(query, SearchResults(query, songs, albums, artists, playlists)) <==>
        query != ""
        && (forall s :: s in songs ==> !SongMatches(q)(s))
        && (forall a :: a in albums ==> !AlbumMatches(q)(a))
        && (forall a :: a in artists ==> !ArtistMatches(q)(a))
        && (forall p :: p in playlists ==> !PlaylistMatches(q)(p))
  {
    var r := SearchResults(query, songs, albums, artists, playlists);
    if query != "" {
      var q := ToLower(query);
      var v := r.value;
      assert |TopSongs(r)| > 0 <==> v.songs != [];
      assert v.songs == [] <==> forall s :: s in songs ==> !SongMatches(q)(s) by {
        if v.songs != [] {
          assert v.songs[0] in v.songs;
        }
      }
      assert v.albums == [] <==> forall a :: a in albums ==> !AlbumMatches(q)(a) by {
        if v.albums != [] {
          assert v.albums[0] in v.albums;
        }
      }
      assert v.artists == [] <==> forall a :: a in artists ==> !ArtistMatches(q)(a) by {
        if v.artists != [] {
          assert v.artists[0] in v.artists;
        }
      }
      assert v.playlists == [] <==> forall p :: p in playlists ==> !PlaylistMatches(q)(p) by {
        if v.playlists != [] {
          assert v.playlists[0] in v.playlists;
        }
      }
    }
  }
}
