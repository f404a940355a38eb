/**
 * The playlist page (`pages/PlaylistView.tsx`): which songs, title and description it shows for a
 * smart playlist handed over in the navigation state, for Liked Songs, or for a user playlist; the
 * play button; and the colour at the top of the page's background gradient.
 */
module PlaylistView {
  import opened Optional
  import opened Types
  import opened Seqs
  import opened JsText
  import opened MusicContext
  import opened ItemCard
  import SmartPlaylists

  /** The page's contents; `NotFound` is "Playlist not found.". */
  datatype Page =
    | NotFound
    | Shown(title: string, songs: seq<Song>, description: string, kind: PageKind)

  /** Where the page's songs came from. */
  datatype PageKind = Smart(smart: SmartPlaylist) | Liked | Custom(custom: Playlist)

  /** Whether a song's id is in a set of ids. */
  function IdInSet(ids: set<string>): Song -> bool {
    (s: Song) => s.id in ids
  }

  /** Whether a playlist has the given id. */
  function HasId(id: string): Playlist -> bool {
    (p: Playlist) => p.id == id
  }

  /** `${n} songs`. */
  function SongCount(n: nat): string {
    NatToString(n) + " songs"
  }

  /** The user playlist's description as the page prints it: the entity is text in a JavaScript string, so it is not decoded. */
  function CustomDescriptionAsWritten(n: nat): string {
    "Your custom playlist &middot; " + SongCount(n)
  }

  /** The description evidently intended: a middle dot between the two parts. */
  function CustomDescription(n: nat): string {
    "Your custom playlist" + Dot + SongCount(n)
  }

  /** As written, every user playlist's description shows the raw `&middot;` and no middle dot. */
  lemma CustomDescriptionShowsEntity(n: nat)
    ensures var d := CustomDescriptionAsWritten(n);
      |d| > 28 && d[21..29] == "&middot;" && '\U{00B7}' !in d[..29]
  {
  }

  /** The intended description puts the dot after the title and reads back the song count. */
  lemma CustomDescriptionReadsBack(n: nat)
    ensures var d := CustomDescription(n);
      |d| > 23 && d[..23] == "Your custom playlist" + Dot && ParseInt(d[23..]) == Some(n)
  {
    var d := CustomDescription(n);
    assert d == ("Your custom playlist" + Dot) + SongCount(n);
    assert d[23..] == NatToString(n) + " songs";
    ParseIntDigits(NatToString(n), " songs");
    NatToStringValue(n);
  }

  /** "n songs" is read back as the song count. */
  lemma SongCountReadsBack(n: nat)
    ensures ParseInt(SongCount(n)) == Some(n)
  {
    ParseIntDigits(NatToString(n), " songs");
    NatToStringValue(n);
  }

  /**
   * The page for route id `playlistId` and navigation state `state`: a state is shown as it is; with
   * none, `liked` is the library songs the user likes; otherwise the user playlist with that id shows
   * the library songs it lists, in library order; with no such playlist, "not found".
   */
  function PageFor(playlistId: string, state: Option<SmartPlaylist>, playlists: seq<Playlist>,
                   songs: seq<Song>, likedSongs: set<string>): (r: Page)
    ensures state.Some? ==> r == Shown(state.value.name, state.value.songs, state.value.description, Smart(state.value))
    ensures state.None? && playlistId == "liked" ==>
      r.Shown? && r.title == "Liked Songs" && r.kind == Liked && r.description == SongCount(|r.songs|)
      && IsSubseq(r.songs, songs) && (forall s :: s in r.songs <==> s in songs && s.id in likedSongs)
    ensures state.None? && playlistId != "liked" ==>
      (r.NotFound? <==> forall p :: p in playlists ==> p.id != playlistId)
    ensures state.None? && playlistId != "liked" && r.Shown? ==>
      r.kind.Custom? && r.kind.custom.id == playlistId
      && (exists j :: 0 <= j < |playlists| && playlists[j] == r.kind.custom
            && forall k :: 0 <= k < j ==> playlists[k].id != playlistId)
      && r.title == r.kind.custom.name && r.description == CustomDescriptionAsWritten(|r.songs|)
      && IsSubseq(r.songs, songs) && (forall s :: s in r.songs <==> s in songs && s.id in r.kind.custom.songs)
  {
    if state.Some? then
      Shown(state.value.name, state.value.songs, state.value.description, Smart(state.value))
    else if playlistId == "liked" then
      var liked := Filter(songs, IdInSet(likedSongs));
      FilterIsSubseq(songs, IdInSet(likedSongs));
      Shown("Liked Songs", liked, SongCount(|liked|), Liked)
    else
      match Find(playlists, HasId(playlistId))
      case None => NotFound
      case Some(p) =>
        var listed := Filter(songs, IdIn(p.songs));
        FilterIsSubseq(songs, IdIn(p.songs));
        Shown(p.name, listed, CustomDescriptionAsWritten(|listed|), Custom(p))
  }

  /** The play button is disabled exactly when the page has no songs. */
  predicate PlayDisabled(page: Page)
    requires page.Shown?
  {
    |page.songs| == 0
  }

  /**
   * `handlePlayPlaylist`: with songs, the first plays with the page's songs as the queue; with none,
   * nothing happens.
   */
  method PlayPlaylist(engine: MusicEngine, page: Page, now: int, audioStarts: bool, draws: seq<nat>,
                      fetched: Option<LyricsData>, writeSucceeds: bool)
    requires page.Shown?
    modifies engine, engine.lyricsStore
    ensures PlayDisabled(page) ==> engine.State() == old(engine.State())
    ensures !PlayDisabled(page) ==>
      engine.State() == Played(old(engine.State()), page.songs[0], page.songs, now, audioStarts, draws, fetched, writeSucceeds)
  {
    if |page.songs| > 0 {
      engine.PlaySong(page.songs[0], page.songs, now, audioStarts, draws, fetched, writeSucceeds);
    }
  }

  // ---------------------------------------------------------------- background colour

  /** The page's background colour when nothing better is known. */
  const Fallback := "#1a1a1a"

  /** Liked Songs' background colour. */
  const LikedColour := "#400868"

  /** The colours the page knows for the Tailwind colour names in smart playlists' gradients. */
  const ColourTable: map<string, string> := map[
    "pink-500" := "#ec4899", "blue-500" := "#3b82f6", "red-500" := "#ef4444",
    "gray-700" := "#374151", "yellow-400" := "#facc15", "indigo-500" := "#6366f1",
    "teal-400" := "#2dd4bf", "green-600" := "#16a34a", "gray-800" := "#1f2937", "amber-500" := "#f59e0b"]

  /** Whether `/from-([^ ]+)/` can match at index `i` of `g`. */
  predicate FromAt(g: string, i: nat) {
    i + 5 < |g| && g[i..i + 5] == "from-" && g[i + 5] != ' '
  }

  /** The longest prefix of `s` without a space: what `[^ ]+` takes. */
  function NonSpaceRun(s: string): (r: string)
    ensures |r| <= |s| && r == s[..|r|] && ' ' !in r
    ensures |r| < |s| ==> s[|r|] == ' '
  {
    if s == [] || s[0] == ' ' then [] else [s[0]] + NonSpaceRun(s[1..])
  }

  /** The leftmost index at or after `i` where `/from-([^ ]+)/` matches, or -1. */
  function FromIndex(g: string, i: nat): (r: int)
    requires i <= |g|
    ensures r == -1 || i <= r < |g|
    ensures r >= 0 ==> FromAt(g, r)
    ensures forall j :: i <= j < |g| && (r == -1 || j < r) ==> !FromAt(g, j)
    decreases |g| - i
  {
    if i == |g| then -1
    else if FromAt(g, i) then i
    else FromIndex(g, i + 1)
  }

  /**
   * `/from-([^ ]+)/.exec(g)`'s capture: the non-space run after the leftmost `from-` that is followed
   * by a non-space character; `None` when there is no such `from-`.
   */
  function FromColour(g: string): (r: Option<string>)
    ensures r.None? <==> forall j :: 0 <= j < |g| ==> !FromAt(g, j)
    ensures r.Some? ==> r.value != "" && ' ' !in r.value
  {
    var i := FromIndex(g, 0);
    if i == -1 then None else Some(NonSpaceRun(g[i + 5..]))
  }

  /** A run of non-space characters up to a space or the end is taken whole. */
  lemma {:induction false} NonSpaceRunOf(tok: string, rest: string)
    requires ' ' !in tok
    requires rest == [] || rest[0] == ' '
    ensures NonSpaceRun(tok + rest) == tok
  {
    if tok == [] {
      assert tok + rest == rest;
    } else {
      assert (tok + rest)[1..] == tok[1..] + rest;
      NonSpaceRunOf(tok[1..], rest);
    }
  }

  /** A gradient that starts with `from-` and a colour name gives that name. */
  lemma FromColourOf(tok: string, rest: string)
    requires tok != "" && ' ' !in tok
    requires rest == [] || rest[0] == ' '
    ensures FromColour("from-" + tok + rest) == Some(tok)
  {
    var g := "from-" + tok + rest;
    assert g[..5] == "from-" && g[5] == tok[0];
    assert FromAt(g, 0);
    assert g[5..] == tok + rest;
    NonSpaceRunOf(tok, rest);
  }

  /** `colorMap[name] || '#1a1a1a'`. */
  function TableColour(name: string): (r: string)
    ensures name in ColourTable ==> r == ColourTable[name]
    ensures name !in ColourTable ==> r == Fallback
  {
    if name in ColourTable then ColourTable[name] else Fallback
  }

  /** The colour for a smart playlist's gradient: the table's colour for its `from-` name, else the fallback. */
  function GradientColour(g: string): (r: string)
    ensures r == Fallback || r in ColourTable.Values
  {
    match FromColour(g)
    case None => Fallback
    case Some(name) => TableColour(name)
  }

  /**
   * The background colour: a smart playlist's gradient decides when it has one; otherwise a user
   * playlist's cover decides through its dominant colour (`extracted`, `None` when extraction
   * fails); otherwise Liked Songs has its own colour and everything else the fallback.
   */
  function BackgroundColour(page: Page, extracted: Option<string>): (r: string)
    requires page.Shown?
    ensures page.kind.Smart? && Truthy(page.kind.smart.gradient) ==> r == GradientColour(page.kind.smart.gradient.value)
    ensures page.kind.Liked? ==> r == LikedColour
    ensures page.kind.Custom? && Truthy(Cover(page)) ==> r == extracted.GetOr(Fallback)
    ensures page.kind.Custom? && !Truthy(Cover(page)) ==> r == Fallback
  {
    if page.kind.Smart? && Truthy(page.kind.smart.gradient) then GradientColour(page.kind.smart.gradient.value)
    else if Truthy(Cover(page)) then extracted.GetOr(Fallback)
    else if page.kind.Liked? then LikedColour
    else Fallback
  }

  /** `playlistCover`: the first song's cover art, for a user playlist only. */
  function Cover(page: Page): (r: Option<string>)
    requires page.Shown?
    ensures r.Some? ==> page.kind.Custom? && |page.songs| > 0 && page.songs[0].coverArt == r
  {
    if page.kind.Custom? && |page.songs| > 0 then page.songs[0].coverArt else None
  }

  /** The colour name each of the ten candidate smart playlists' gradients starts from. */
  function CandidateFrom(k: nat): string {
    if k == 0 then "pink-500" else if k == 1 then "blue-500" else if k == 2 then "red-500"
    else if k == 3 then "gray-700" else if k == 4 then "yellow-400" else if k == 5 then "indigo-500"
    else if k == 6 then "teal-400" else if k == 7 then "green-600" else if k == 8 then "gray-800"
    else "amber-500"
  }

  /** The colour name each candidate's gradient ends at. */
  function CandidateTo(k: nat): string {
    if k == 0 then "purple-600" else if k == 1 then "green-400" else if k == 2 then "orange-400"
    else if k == 3 then "blue-900" else if k == 4 then "red-500" else if k == 5 then "purple-500"
    else if k == 6 then "cyan-500" else if k == 7 then "lime-400" else if k == 8 then "indigo-900"
    else "orange-600"
  }

  /** The gradient each of the ten candidate smart playlists is built with. */
  function CandidateGradient(k: nat): string {
    SmartPlaylists.Gradient(CandidateFrom(k), CandidateTo(k))
  }

  /** Every candidate smart playlist carries its gradient. */
  lemma CandidateHasGradient(k: nat, songs: seq<Song>, artists: seq<Artist>, now: int, hour: int, draws: string -> seq<nat>)
    ensures var c := SmartPlaylists.Candidate(k, songs, artists, now, hour, draws);
      c.Some? ==> c.value.gradient == Some(CandidateGradient(k))
  {
  }

  /** A gradient whose `from-` name the table knows opens on that name's colour. */
  lemma TableGradient(tok: string, rest: string)
    requires tok in ColourTable && tok != "" && ' ' !in tok
    requires rest == [] || rest[0] == ' '
    ensures GradientColour("from-" + tok + rest) == ColourTable[tok]
    ensures GradientColour("from-" + tok + rest) in ColourTable.Values
    ensures GradientColour("from-" + tok + rest) != Fallback
  {
    FromColourOf(tok, rest);
    TableAvoidsFallback(tok);
  }

  /** No colour in the table is the fallback, so a known name is always told apart from an unknown one. */
  lemma TableAvoidsFallback(tok: string)
    requires tok in ColourTable
    ensures ColourTable[tok] != Fallback
  {
  }

  /** Each candidate's gradient names a colour the table knows, so none falls back. */
  lemma CandidateGradientHasColour(k: nat)
    ensures GradientColour(CandidateGradient(k)) in ColourTable.Values
    ensures GradientColour(CandidateGradient(k)) != Fallback
  {
    var from, to := CandidateFrom(k), CandidateTo(k);
    assert from in ColourTable && from != "" && ' ' !in from;
    assert CandidateGradient(k) == "from-" + from + (" to-" + to);
    TableGradient(from, " to-" + to);
  }

  /**
   * Every smart playlist the home page links to has a gradient whose colour the table knows, so its
   * page never opens on the fallback.
   */
  lemma SmartPlaylistsHaveColours(songs: seq<Song>, artists: seq<Artist>, aiEnabled: bool, now: int, hour: int,
                                  draws: string -> seq<nat>, p: SmartPlaylist)
    requires p in SmartPlaylists.SmartPlaylists(songs, artists, aiEnabled, now, hour, draws)
    ensures p.gradient.Some? && Truthy(p.gradient)
    ensures GradientColour(p.gradient.value) in ColourTable.Values && GradientColour(p.gradient.value) != Fallback
  {
    var cs := SmartPlaylists.Candidates(songs, artists, now, hour, draws);
    assert Some(p) in cs;
    var k :| 0 <= k < |cs| && cs[k] == Some(p);
    CandidateHasGradient(k, songs, artists, now, hour, draws);
    CandidateGradientHasColour(k);
  }
}
