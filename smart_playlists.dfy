/**
 * The "Made for You" smart playlists of the playback engine (`getSmartPlaylists` in
 * `contexts/MusicContext.tsx`): ten candidate playlists, each a filter/sort/shuffle/truncate
 * pipeline over the library, of which those with more than five songs are shown.
 *
 * The clock (`Date.now()`), the hour of day and the random shuffles are parameters: `draws` gives,
 * per playlist id, the random choices of that playlist's shuffle.
 */
module SmartPlaylists {
  import opened Optional
  import opened Seqs
  import opened JsText
  import opened Types

  const OneWeekMs := 7 * 24 * 60 * 60 * 1000
  const OneMonthMs := 30 * 24 * 60 * 60 * 1000

  /** A Tailwind gradient class list from one colour name to another. */
  function Gradient(from: string, to: string): string {
    "from-" + from + " to-" + to
  }

  /** `s.lastPlayed || 0`: a song never played counts as played at time 0. */
  function LastPlayedOrZero(s: Song): int {
    if s.lastPlayed.Some? then s.lastPlayed.value else 0
  }

  /** `s.tags && 'moods' in s.tags && s.tags.moods?.includes(mood)`. */
  predicate HasMood(s: Song, mood: string) {
    s.tags.Some? && s.tags.value.moods.Some? && mood in s.tags.value.moods.value
  }

  /** The genres of a song, when its tags hold a genre list. */
  function SongGenres(s: Song): seq<string> {
    if s.tags.Some? && s.tags.value.genres.Some? then s.tags.value.genres.value else []
  }

  predicate HasGenre(s: Song, genre: string) {
    genre in SongGenres(s)
  }

  function Tagged(mood: string): Song -> bool {
    (s: Song) => HasMood(s, mood)
  }

  function InGenre(genre: string): Song -> bool {
    (s: Song) => HasGenre(s, genre)
  }

  function PlayedMoreThan(n: int): Song -> bool {
    (s: Song) => s.playCount > n
  }

  function LastPlayedBefore(t: int): Song -> bool {
    (s: Song) => LastPlayedOrZero(s) < t
  }

  function LastPlayedAfter(t: int): Song -> bool {
    (s: Song) => LastPlayedOrZero(s) > t
  }

  function Forgotten(t: int): Song -> bool {
    (s: Song) => LastPlayedOrZero(s) < t && s.playCount > 2
  }

  /** `(a, b) => b.playCount - a.playCount`. */
  function MostPlayedFirst(s: Song): Key {
    Key(-s.playCount, 0)
  }

  /** `(a, b) => b.dateAdded - a.dateAdded`. */
  function NewestFirst(s: Song): Key {
    Key(-s.dateAdded, 0)
  }

  function ArtistMostPlayedFirst(a: Artist): Key {
    Key(-a.playCount, 0)
  }

  /** `shuffle(pool).slice(0, cap)`: up to `cap` songs of the pool in random order. */
  function ShuffledSample(pool: seq<Song>, draws: seq<nat>, cap: nat): (r: seq<Song>)
    ensures |r| == if cap < |pool| then cap else |pool|
    ensures multiset(r) <= multiset(pool)
    ensures forall s :: s in r ==> s in pool
  {
    var shuffled := Shuffled(pool, draws);
    TakeIsSubMultiset(shuffled, cap);
    var r := Take(shuffled, cap);
    assert forall s :: s in r ==> s in pool by {
      forall s | s in r ensures s in pool {
        assert s in multiset(r);
      }
    }
    r
  }

  // ---------------------------------------------------------------- the ten candidates

  /** The playlist ids. */
  const MoodieMixId := "moodie-mix"
  const DailyDriveId := "daily-drive"
  const WorkoutMixId := "workout-mix"
  const FocusFlowId := "focus-flow"
  const OnRepeatId := "on-repeat"
  const ThrowbackJamsId := "throwback-jams"
  const NewArrivalsId := "new-arrivals"
  const ArtistSpotlightId := "artist-spotlight"
  const AfterDarkId := "after-dark"
  const GenreExplorerId := "genre-explorer"

  /** The Moodie Mix's title by hour of day: "Morning Boost", "Afternoon Focus", "Evening Chill" or "Late Night Vibes". */
  function MoodieName(hour: int): string {
    MoodieFirst(hour) + " " + MoodieRest(hour)
  }

  /** The title's first word. */
  function MoodieFirst(hour: int): string {
    if hour < 12 then "Morning" else if hour < 18 then "Afternoon" else if hour < 22 then "Evening" else "Late"
  }

  /** The rest of the title after its first space. */
  function MoodieRest(hour: int): string {
    if hour < 12 then "Boost" else if hour < 18 then "Focus" else if hour < 22 then "Chill" else "Night Vibes"
  }

  /** The mood tag the Moodie Mix draws from by hour of day. */
  function MoodieMood(hour: int): string {
    if hour < 12 then "energetic" else if hour < 18 then "focus" else if hour < 22 then "calm" else "late night"
  }

  /** The first word of the Moodie Mix's title, lower-cased, as its description uses it. */
  function MoodieWord(hour: int): string {
    if hour < 12 then "morning" else if hour < 18 then "afternoon" else if hour < 22 then "evening" else "late"
  }

  /** `name.split(' ')[0].toLowerCase()` is the word the description uses. */
  lemma MoodieWordIsFirstWord(hour: int)
    ensures MoodieWord(hour) == ToLower(Split(MoodieName(hour), ' ')[0])
  {
    WordOfName(MoodieFirst(hour), MoodieRest(hour), MoodieWord(hour));
  }

  lemma WordOfName(first: string, rest: string, word: string)
    requires ' ' !in first && |word| == |first| && forall i :: 0 <= i < |first| ==> LowerChar(first[i]) == word[i]
    ensures ToLower(Split(first + " " + rest, ' ')[0]) == word
  {
    FirstPiece(first, rest, ' ');
  }

  /** The Moodie Mix: up to 30 songs tagged with the hour's mood, shuffled. */
  function MoodieMix(songs: seq<Song>, hour: int, draws: seq<nat>): (p: SmartPlaylist)
    ensures p.id == MoodieMixId && p.name == MoodieName(hour)
    ensures |p.songs| == if 30 < |Filter(songs, Tagged(MoodieMood(hour)))| then 30 else |Filter(songs, Tagged(MoodieMood(hour)))|
    ensures multiset(p.songs) <= multiset(songs)
    ensures forall s :: s in p.songs ==> HasMood(s, MoodieMood(hour))
  {
    SmartPlaylist(MoodieMixId, MoodieName(hour), "A mix for your " + MoodieWord(hour) + ", based on your listening habits.",
      ShuffledSample(Filter(songs, Tagged(MoodieMood(hour))), draws, 30), Some(Gradient("pink-500", "purple-600")))
  }

  /** The pool of the Daily Drive: the favourites, then the songs not played for a month; a song can be in both. */
  function DailyDrivePool(songs: seq<Song>, now: int): seq<Song> {
    Filter(songs, PlayedMoreThan(5)) + Filter(songs, LastPlayedBefore(now - OneMonthMs))
  }

  /** The Daily Drive: up to 50 songs of its pool, shuffled. */
  function DailyDrive(songs: seq<Song>, now: int, draws: seq<nat>): (p: SmartPlaylist)
    ensures p.id == DailyDriveId
    ensures |p.songs| == if 50 < |DailyDrivePool(songs, now)| then 50 else |DailyDrivePool(songs, now)|
    ensures multiset(p.songs) <= multiset(DailyDrivePool(songs, now))
    ensures forall s :: s in p.songs ==> s in songs && (s.playCount > 5 || LastPlayedOrZero(s) < now - OneMonthMs)
  {
    SmartPlaylist(DailyDriveId, "Daily Drive Mix", "Your favorite tracks and new discoveries.",
      ShuffledSample(DailyDrivePool(songs, now), draws, 50), Some(Gradient("blue-500", "green-400")))
  }

  /**
   * A favourite that has not been played for a month is in the Daily Drive pool twice; a song never
   * played counts as not played for a month once the clock is past a month.
   */
  lemma DailyDriveRepeats(songs: seq<Song>, now: int, s: Song)
    requires s in songs && s.playCount > 5 && s.lastPlayed.None? && now > OneMonthMs
    ensures multiset(DailyDrivePool(songs, now))[s] >= 2
  {
    var a, b := Filter(songs, PlayedMoreThan(5)), Filter(songs, LastPlayedBefore(now - OneMonthMs));
    assert multiset(a)[s] == multiset(songs)[s] && multiset(b)[s] == multiset(songs)[s];
    assert multiset(a + b) == multiset(a) + multiset(b);
  }

  /** The Workout Mix: up to 50 songs tagged `workout`, shuffled. */
  function WorkoutMix(songs: seq<Song>, draws: seq<nat>): (p: SmartPlaylist)
    ensures p.id == WorkoutMixId
    ensures |p.songs| == if 50 < |Filter(songs, Tagged("workout"))| then 50 else |Filter(songs, Tagged("workout"))|
    ensures multiset(p.songs) <= multiset(songs)
    ensures forall s :: s in p.songs ==> HasMood(s, "workout")
  {
    SmartPlaylist(WorkoutMixId, "Workout Mix", "High-energy tracks to keep you moving.",
      ShuffledSample(Filter(songs, Tagged("workout")), draws, 50), Some(Gradient("red-500", "orange-400")))
  }

  /** Focus Flow: up to 50 songs tagged `focus`, shuffled. */
  function FocusFlow(songs: seq<Song>, draws: seq<nat>): (p: SmartPlaylist)
    ensures p.id == FocusFlowId
    ensures |p.songs| == if 50 < |Filter(songs, Tagged("focus"))| then 50 else |Filter(songs, Tagged("focus"))|
    ensures multiset(p.songs) <= multiset(songs)
    ensures forall s :: s in p.songs ==> HasMood(s, "focus")
  {
    SmartPlaylist(FocusFlowId, "Focus Flow", "Instrumental and ambient music for concentration.",
      ShuffledSample(Filter(songs, Tagged("focus")), draws, 50), Some(Gradient("gray-700", "blue-900")))
  }

  /** The songs played in the last week, most played first (ties in library order). */
  function RecentByPlays(songs: seq<Song>, now: int): seq<Song> {
    SortByKey(Filter(songs, LastPlayedAfter(now - OneWeekMs)), MostPlayedFirst)
  }

  /** The week's songs by plays: all from the library and played this week, play counts never rising. */
  lemma RankedRecent(songs: seq<Song>, now: int)
    ensures var ranked := RecentByPlays(songs, now);
      && (forall s :: s in ranked ==> s in songs && LastPlayedOrZero(s) > now - OneWeekMs)
      && forall i, j :: 0 <= i < j < |ranked| ==> ranked[i].playCount >= ranked[j].playCount
  {
    var pool := Filter(songs, LastPlayedAfter(now - OneWeekMs));
    var ranked := SortByKey(pool, MostPlayedFirst);
    forall s | s in ranked
      ensures s in songs && LastPlayedOrZero(s) > now - OneWeekMs
    {
      assert s in multiset(ranked);
      assert s in multiset(pool);
    }
    forall i, j | 0 <= i < j < |ranked|
      ensures ranked[i].playCount >= ranked[j].playCount
    {
      assert !KeyLt(MostPlayedFirst(ranked[j]), MostPlayedFirst(ranked[i]));
    }
  }

  /** On Repeat: the 30 most played songs of the last week, most played first; not shuffled. */
  function OnRepeat(songs: seq<Song>, now: int): (p: SmartPlaylist)
    ensures p.id == OnRepeatId
    ensures |p.songs| <= 30 && p.songs == Take(RecentByPlays(songs, now), 30)
    ensures forall i, j :: 0 <= i < j < |p.songs| ==> p.songs[i].playCount >= p.songs[j].playCount
    ensures forall s :: s in p.songs ==> s in songs && LastPlayedOrZero(s) > now - OneWeekMs
  {
    var ranked := RecentByPlays(songs, now);
    RankedRecent(songs, now);
    var top := Take(ranked, 30);
    assert forall i :: 0 <= i < |top| ==> top[i] == ranked[i];
    SmartPlaylist(OnRepeatId, "On Repeat", "Songs you've had on repeat recently.", top, Some(Gradient("yellow-400", "red-500")))
  }

  /** On Repeat keeps the most played: every recent song it leaves out is played no more than any it keeps. */
  lemma OnRepeatIsTop(songs: seq<Song>, now: int)
    ensures var ranked := RecentByPlays(songs, now);
      var kept := OnRepeat(songs, now).songs;
      && multiset(kept) + multiset(Drop(ranked, 30)) == multiset(Filter(songs, LastPlayedAfter(now - OneWeekMs)))
      && forall i, j :: 0 <= i < |kept| && 0 <= j < |Drop(ranked, 30)| ==> kept[i].playCount >= Drop(ranked, 30)[j].playCount
  {
    var ranked := RecentByPlays(songs, now);
    var kept := OnRepeat(songs, now).songs;
    assert ranked == kept + Drop(ranked, 30);
    forall i, j | 0 <= i < |kept| && 0 <= j < |Drop(ranked, 30)| ensures kept[i].playCount >= Drop(ranked, 30)[j].playCount {
      assert kept[i] == ranked[i] && Drop(ranked, 30)[j] == ranked[|kept| + j];
    }
  }

  /** Throwback Jams: up to 40 songs played more than twice but not in the last month, shuffled. */
  function ThrowbackJams(songs: seq<Song>, now: int, draws: seq<nat>): (p: SmartPlaylist)
    ensures p.id == ThrowbackJamsId
    ensures |p.songs| == if 40 < |Filter(songs, Forgotten(now - OneMonthMs))| then 40 else |Filter(songs, Forgotten(now - OneMonthMs))|
    ensures multiset(p.songs) <= multiset(songs)
    ensures forall s :: s in p.songs ==> s.playCount > 2 && LastPlayedOrZero(s) < now - OneMonthMs
  {
    SmartPlaylist(ThrowbackJamsId, "Throwback Jams", "Rediscover tracks you haven't heard in a while.",
      ShuffledSample(Filter(songs, Forgotten(now - OneMonthMs)), draws, 40), Some(Gradient("indigo-500", "purple-500")))
  }

  /** New Arrivals: the 30 most recently added songs, newest first; not shuffled. */
  function NewArrivals(songs: seq<Song>): (p: SmartPlaylist)
    ensures p.id == NewArrivalsId
    ensures |p.songs| == if 30 < |songs| then 30 else |songs|
    ensures multiset(p.songs) <= multiset(songs)
    ensures forall i, j :: 0 <= i < j < |p.songs| ==> p.songs[i].dateAdded >= p.songs[j].dateAdded
  {
    var newest := SortByKey(songs, NewestFirst);
    TakeIsSubMultiset(newest, 30);
    SortedTake(newest, NewestFirst, 30);
    var top := Take(newest, 30);
    assert forall i, j :: 0 <= i < j < |top| ==> !KeyLt(NewestFirst(top[j]), NewestFirst(top[i]));
    SmartPlaylist(NewArrivalsId, "New Arrivals", "Your most recently added tracks.", top, Some(Gradient("teal-400", "cyan-500")))
  }

  /** New Arrivals keeps the newest: every song it leaves out was added no later than any it keeps. */
  lemma NewArrivalsIsTop(songs: seq<Song>)
    ensures var ranked := SortByKey(songs, NewestFirst);
      var kept := NewArrivals(songs).songs;
      && multiset(kept) + multiset(Drop(ranked, 30)) == multiset(songs)
      && forall i, j :: 0 <= i < |kept| && 0 <= j < |Drop(ranked, 30)| ==> kept[i].dateAdded >= Drop(ranked, 30)[j].dateAdded
  {
    var ranked := SortByKey(songs, NewestFirst);
    var kept := NewArrivals(songs).songs;
    assert kept == Take(ranked, 30);
    assert ranked == kept + Drop(ranked, 30);
    forall i, j | 0 <= i < |kept| && 0 <= j < |Drop(ranked, 30)| ensures kept[i].dateAdded >= Drop(ranked, 30)[j].dateAdded {
      assert kept[i] == ranked[i] && Drop(ranked, 30)[j] == ranked[|kept| + j];
      assert !KeyLt(NewestFirst(ranked[|kept| + j]), NewestFirst(ranked[i]));
    }
  }

  /**
   * Artist Spotlight: up to 40 songs of the most played artist, shuffled; none without artists.
   * The sort that picks the artist reorders the shared artists list; see `MusicEngine.GetSmartPlaylists`.
   */
  function ArtistSpotlight(artists: seq<Artist>, draws: seq<nat>): (r: Option<SmartPlaylist>)
    ensures r.None? <==> artists == []
    ensures r.Some? ==> r.value.id == ArtistSpotlightId
    ensures r.Some? ==> exists i :: (0 <= i < |artists| && r.value.name == "Artist Spotlight: " + artists[i].name
      && r.value.songs == ShuffledSample(artists[i].songs, draws, 40)
      && (forall j :: 0 <= j < |artists| ==> artists[j].playCount <= artists[i].playCount)
      && (forall j :: 0 <= j < i ==> artists[j].playCount < artists[i].playCount))
  {
    var ranked := SortByKey(artists, ArtistMostPlayedFirst);
    if ranked == [] then None
    else
      var top := ranked[0];
      SpotlightIsFirstMostPlayed(artists);
      Some(SmartPlaylist(ArtistSpotlightId, "Artist Spotlight: " + top.name, "A deep dive into " + top.name + "'s music.",
        ShuffledSample(top.songs, draws, 40), Some(Gradient("green-600", "lime-400"))))
  }

  /** The spotlighted artist is the first artist, in list order, with the highest play count. */
  lemma SpotlightIsFirstMostPlayed(artists: seq<Artist>)
    requires artists != []
    ensures exists i :: (0 <= i < |artists| && SortByKey(artists, ArtistMostPlayedFirst)[0] == artists[i]
      && (forall j :: 0 <= j < |artists| ==> artists[j].playCount <= artists[i].playCount)
      && (forall j :: 0 <= j < i ==> artists[j].playCount < artists[i].playCount))
  {
    SortHeadIsFirstLeast(artists, ArtistMostPlayedFirst);
    var i :| FirstLeast(artists, ArtistMostPlayedFirst, i) && SortByKey(artists, ArtistMostPlayedFirst)[0] == artists[i];
    FirstMostPlayed(artists, i);
  }

  /** The first artist with the least key is the first with the most plays. */
  lemma FirstMostPlayed(artists: seq<Artist>, i: int)
    requires FirstLeast(artists, ArtistMostPlayedFirst, i)
    ensures forall j :: 0 <= j < |artists| ==> artists[j].playCount <= artists[i].playCount
    ensures forall j :: 0 <= j < i ==> artists[j].playCount < artists[i].playCount
  {
    forall j | 0 <= j < |artists| ensures artists[j].playCount <= artists[i].playCount {
      assert !KeyLt(ArtistMostPlayedFirst(artists[j]), ArtistMostPlayedFirst(artists[i]));
    }
    forall j | 0 <= j < i ensures artists[j].playCount < artists[i].playCount {
      assert ArtistMostPlayedFirst(artists[j]) != ArtistMostPlayedFirst(artists[i]);
      assert !KeyLt(ArtistMostPlayedFirst(artists[j]), ArtistMostPlayedFirst(artists[i]));
    }
  }

  /** After Dark: up to 40 songs tagged `late night`, shuffled. */
  function AfterDark(songs: seq<Song>, draws: seq<nat>): (p: SmartPlaylist)
    ensures p.id == AfterDarkId
    ensures |p.songs| == if 40 < |Filter(songs, Tagged("late night"))| then 40 else |Filter(songs, Tagged("late night"))|
    ensures multiset(p.songs) <= multiset(songs)
    ensures forall s :: s in p.songs ==> HasMood(s, "late night")
  {
    SmartPlaylist(AfterDarkId, "After Dark", "Chill tracks for late-night listening.",
      ShuffledSample(Filter(songs, Tagged("late night")), draws, 40), Some(Gradient("gray-800", "indigo-900")))
  }

  // ---------------------------------------------------------------- genre explorer

  /** Every genre occurrence in the library, song by song; a genre listed twice on one song counts twice. */
  function AllGenres(songs: seq<Song>): seq<string> {
    if songs == [] then [] else AllGenres(songs[..|songs| - 1]) + SongGenres(songs[|songs| - 1])
  }

  /** How often `genre` occurs, as the `genreCounts` record holds it. */
  function GenreCount(songs: seq<Song>, genre: string): nat {
    multiset(AllGenres(songs))[genre]
  }

  /** The record is an insertion-ordered tally of `seen`: its keys in first-appearance order, each with its count. */
  ghost predicate Tallies(order: seq<string>, counts: map<string, int>, seen: seq<string>) {
    && order == Distinct(seen)
    && (forall g :: g in counts <==> g in order)
    && (forall g :: g in counts ==> counts[g] == multiset(seen)[g])
  }

  /**
   * The `forEach` that fills `genreCounts`: an insertion-ordered record from genre to count. Its keys
   * are the distinct genres in first-appearance order and each count is the number of occurrences.
   */
  method CountGenres(songs: seq<Song>) returns (order: seq<string>, counts: map<string, int>)
    ensures order == Distinct(AllGenres(songs))
    ensures forall g :: g in counts <==> g in order
    ensures forall g :: g in counts ==> counts[g] == GenreCount(songs, g)
  {
    order, counts := [], map[];
    for i := 0 to |songs|
      invariant Tallies(order, counts, AllGenres(songs[..i]))
    {
      assert songs[..i + 1][..i] == songs[..i];
      order, counts := CountSongGenres(order, counts, SongGenres(songs[i]), AllGenres(songs[..i]));
    }
    assert songs[..|songs|] == songs;
  }

  /** The inner `forEach`: `genreCounts[g] = (genreCounts[g] || 0) + 1` for each genre of one song. */
  method CountSongGenres(order0: seq<string>, counts0: map<string, int>, genres: seq<string>, ghost seen: seq<string>)
    returns (order: seq<string>, counts: map<string, int>)
    requires Tallies(order0, counts0, seen)
    ensures Tallies(order, counts, seen + genres)
  {
    order, counts := order0, counts0;
    assert seen + genres[..0] == seen;
    for j := 0 to |genres|
      invariant Tallies(order, counts, seen + genres[..j])
    {
      var g := genres[j];
      assert seen + genres[..j + 1] == (seen + genres[..j]) + [g];
      TalliesStep(order, counts, seen + genres[..j], g);
      if g in counts {
        counts := counts[g := counts[g] + 1];
      } else {
        counts := counts[g := 1];
        order := order + [g];
      }
    }
    assert genres[..|genres|] == genres;
  }

  /** Counting one more occurrence of `g` keeps the tally correct. */
  lemma TalliesStep(order: seq<string>, counts: map<string, int>, seen: seq<string>, g: string)
    requires Tallies(order, counts, seen)
    ensures g in counts ==> Tallies(order, counts[g := counts[g] + 1], seen + [g])
    ensures g !in counts ==> Tallies(order + [g], counts[g := 1], seen + [g])
  {
    DistinctSnoc(seen, g);
    var m := multiset(seen + [g]);
    assert m == multiset(seen) + multiset{g};
    var c' := if g in counts then counts[g := counts[g] + 1] else counts[g := 1];
    var o' := if g in counts then order else order + [g];
    assert o' == Distinct(seen + [g]);
    forall h | h in c' ensures c'[h] == m[h] {
      if h != g {
        assert c'[h] == counts[h];
      }
    }
    assert Tallies(o', c', seen + [g]);
  }

  function GenreEntry(songs: seq<Song>): string -> (string, int) {
    (g: string) => (g, GenreCount(songs, g))
  }

  /** `(a, b) => b[1] - a[1]` on the record's entries. */
  function MostFrequentFirst(e: (string, int)): Key {
    Key(-e.1, 0)
  }

  /** `Object.entries(genreCounts).sort(...)[0]?.[0]`: the genre of the first entry after sorting by count. */
  function TopGenre(songs: seq<Song>): Option<string> {
    var ranked := SortByKey(Map(Distinct(AllGenres(songs)), GenreEntry(songs)), MostFrequentFirst);
    if ranked == [] then None else Some(ranked[0].0)
  }

  /** There is a top genre exactly when some song has a genre. */
  lemma TopGenreExists(songs: seq<Song>)
    ensures TopGenre(songs).None? <==> AllGenres(songs) == []
  {
    var all := AllGenres(songs);
    if all != [] {
      assert all[0] in Distinct(all);
    }
  }

  /** After a stable sort by count, the first entry is the first name, in list order, with the highest count. */
  lemma FirstMostFrequent(names: seq<string>, entry: string -> (string, int))
    requires names != [] && forall g :: entry(g).0 == g
    ensures exists i :: (0 <= i < |names| && names[i] == SortByKey(Map(names, entry), MostFrequentFirst)[0].0
      && (forall j :: 0 <= j < |names| ==> entry(names[j]).1 <= entry(names[i]).1)
      && (forall j :: 0 <= j < i ==> entry(names[j]).1 < entry(names[i]).1))
  {
    var entries := Map(names, entry);
    SortHeadIsFirstLeast(entries, MostFrequentFirst);
    var i :| FirstLeast(entries, MostFrequentFirst, i) && SortByKey(entries, MostFrequentFirst)[0] == entries[i];
    forall j | 0 <= j < |names| ensures entry(names[j]).1 <= entry(names[i]).1 {
      assert !KeyLt(MostFrequentFirst(entries[j]), MostFrequentFirst(entries[i]));
    }
    forall j | 0 <= j < i ensures entry(names[j]).1 < entry(names[i]).1 {
      assert !KeyLt(MostFrequentFirst(entries[j]), MostFrequentFirst(entries[i]));
      assert MostFrequentFirst(entries[j]) != MostFrequentFirst(entries[i]);
    }
  }

  /** The top genre is a most frequent genre, and every genre that first appears before it is strictly less frequent. */
  lemma TopGenreIsMostFrequent(songs: seq<Song>)
    requires TopGenre(songs).Some?
    ensures var g := TopGenre(songs).value;
      && g in AllGenres(songs)
      && (forall h :: h in AllGenres(songs) ==> GenreCount(songs, h) <= GenreCount(songs, g))
      && exists i :: 0 <= i < |Distinct(AllGenres(songs))| && Distinct(AllGenres(songs))[i] == g
           && forall j :: 0 <= j < i ==> GenreCount(songs, Distinct(AllGenres(songs))[j]) < GenreCount(songs, g)
  {
    var names := Distinct(AllGenres(songs));
    var entry := GenreEntry(songs);
    FirstMostFrequent(names, entry);
    var i :| 0 <= i < |names| && names[i] == SortByKey(Map(names, entry), MostFrequentFirst)[0].0
      && (forall j :: 0 <= j < |names| ==> entry(names[j]).1 <= entry(names[i]).1)
      && (forall j :: 0 <= j < i ==> entry(names[j]).1 < entry(names[i]).1);
    assert TopGenre(songs) == Some(names[i]);
    forall h | h in AllGenres(songs) ensures GenreCount(songs, h) <= GenreCount(songs, names[i]) {
      var m :| 0 <= m < |names| && names[m] == h;
      assert entry(names[m]).1 == GenreCount(songs, h);
    }
  }

  /**
   * Genre Explorer: up to 50 songs of the top genre, shuffled; none when no song has a genre or the
   * top genre is the empty string, which is falsy.
   */
  function GenreExplorer(songs: seq<Song>, draws: seq<nat>): (r: Option<SmartPlaylist>)
    ensures r.None? <==> TopGenre(songs).None? || TopGenre(songs) == Some("")
    ensures r.Some? ==> var g := TopGenre(songs).value;
      && r.value.id == GenreExplorerId && r.value.name == "Genre Explorer: " + g
      && |r.value.songs| == (if 50 < |Filter(songs, InGenre(g))| then 50 else |Filter(songs, InGenre(g))|)
      && multiset(r.value.songs) <= multiset(songs)
      && forall s :: s in r.value.songs ==> HasGenre(s, g)
  {
    match TopGenre(songs)
    case None => None
    case Some(g) =>
      if g == "" then None
      else Some(SmartPlaylist(GenreExplorerId, "Genre Explorer: " + g, "Explore your favorite genre: " + g + ".",
        ShuffledSample(Filter(songs, InGenre(g)), draws, 50), Some(Gradient("amber-500", "orange-600"))))
  }

  // ---------------------------------------------------------------- the list

  /** The id of the `i`-th candidate, in the order they are listed. */
  function CandidateId(i: nat): string {
    if i == 0 then MoodieMixId else if i == 1 then DailyDriveId else if i == 2 then WorkoutMixId
    else if i == 3 then FocusFlowId else if i == 4 then OnRepeatId else if i == 5 then ThrowbackJamsId
    else if i == 6 then NewArrivalsId else if i == 7 then ArtistSpotlightId else if i == 8 then AfterDarkId
    else GenreExplorerId
  }

  /** The song cap of the `i`-th candidate. */
  function Cap(i: nat): nat {
    if i == 0 then 30 else if i == 1 then 50 else if i == 2 then 50 else if i == 3 then 50 else if i == 4 then 30
    else if i == 5 then 40 else if i == 6 then 30 else if i == 7 then 40 else if i == 8 then 40 else 50
  }

  /** Candidate `i`, when it exists, has the `i`-th id and at most the `i`-th cap of songs. */
  predicate WithinCap(c: Option<SmartPlaylist>, i: nat) {
    c.Some? ==> c.value.id == CandidateId(i) && |c.value.songs| <= Cap(i)
  }

  /** Candidate `k` of the list `smartPlaylists`; the two that can be `null` are `None` then. */
  function Candidate(k: nat, songs: seq<Song>, artists: seq<Artist>, now: int, hour: int, draws: string -> seq<nat>): (c: Option<SmartPlaylist>)
    ensures WithinCap(c, k)
  {
    if k == 0 then Some(MoodieMix(songs, hour, draws(MoodieMixId)))
    else if k == 1 then Some(DailyDrive(songs, now, draws(DailyDriveId)))
    else if k == 2 then Some(WorkoutMix(songs, draws(WorkoutMixId)))
    else if k == 3 then Some(FocusFlow(songs, draws(FocusFlowId)))
    else if k == 4 then Some(OnRepeat(songs, now))
    else if k == 5 then Some(ThrowbackJams(songs, now, draws(ThrowbackJamsId)))
    else if k == 6 then Some(NewArrivals(songs))
    else if k == 7 then ArtistSpotlight(artists, draws(ArtistSpotlightId))
    else if k == 8 then Some(AfterDark(songs, draws(AfterDarkId)))
    else GenreExplorer(songs, draws(GenreExplorerId))
  }

  /** The ten candidates, in order. */
  function Candidates(songs: seq<Song>, artists: seq<Artist>, now: int, hour: int, draws: string -> seq<nat>): (cs: seq<Option<SmartPlaylist>>)
    ensures |cs| == 10
    ensures forall i :: 0 <= i < 10 ==> WithinCap(cs[i], i)
  {
    seq(10, k requires 0 <= k => Candidate(k, songs, artists, now, hour, draws))
  }

  /** `.filter(p => p !== null && p.songs.length > 5)`. */
  function Shown(cs: seq<Option<SmartPlaylist>>): (r: seq<SmartPlaylist>)
    ensures |r| <= |cs|
  {
    if cs == [] then []
    else (if cs[0].Some? && |cs[0].value.songs| > 5 then [cs[0].value] else []) + Shown(cs[1..])
  }

  /** Every shown playlist is an existing candidate with more than five songs. */
  lemma {:induction false} ShownFrom(cs: seq<Option<SmartPlaylist>>, k: nat)
    requires k < |Shown(cs)|
    ensures exists a :: 0 <= a < |cs| && cs[a] == Some(Shown(cs)[k]) && |Shown(cs)[k].songs| > 5
  {
    var t := cs[1..];
    if cs[0].Some? && |cs[0].value.songs| > 5 {
      if k == 0 {
        assert cs[0] == Some(Shown(cs)[k]);
      } else {
        ShownFrom(t, k - 1);
        var a :| 0 <= a < |t| && t[a] == Some(Shown(t)[k - 1]) && |Shown(t)[k - 1].songs| > 5;
        assert cs[a + 1] == Some(Shown(cs)[k]);
      }
    } else {
      ShownFrom(t, k);
      var a :| 0 <= a < |t| && t[a] == Some(Shown(t)[k]) && |Shown(t)[k].songs| > 5;
      assert cs[a + 1] == Some(Shown(cs)[k]);
    }
  }

  /** Every existing candidate with more than five songs is shown. */
  lemma {:induction false} ShownHas(cs: seq<Option<SmartPlaylist>>, a: nat)
    requires a < |cs| && cs[a].Some? && |cs[a].value.songs| > 5
    ensures cs[a].value in Shown(cs)
  {
    if a > 0 {
      ShownHas(cs[1..], a - 1);
    }
  }

  /** The filter keeps the candidates' order: any two shown playlists come from candidates in the same order. */
  lemma {:induction false} ShownKeepsOrder(cs: seq<Option<SmartPlaylist>>, i: nat, j: nat)
    requires i < j < |Shown(cs)|
    ensures exists a, b :: 0 <= a < b < |cs| && cs[a] == Some(Shown(cs)[i]) && cs[b] == Some(Shown(cs)[j])
  {
    var r := Shown(cs);
    var t := cs[1..];
    var rest := Shown(t);
    if cs[0].Some? && |cs[0].value.songs| > 5 {
      assert r == [cs[0].value] + rest;
      if i == 0 {
        ShownFrom(t, j - 1);
        var b :| 0 <= b < |t| && t[b] == Some(rest[j - 1]) && |rest[j - 1].songs| > 5;
        assert cs[0] == Some(r[i]) && cs[b + 1] == Some(r[j]);
      } else {
        ShownKeepsOrder(t, i - 1, j - 1);
        var a, b :| 0 <= a < b < |t| && t[a] == Some(rest[i - 1]) && t[b] == Some(rest[j - 1]);
        assert cs[a + 1] == Some(r[i]) && cs[b + 1] == Some(r[j]);
      }
    } else {
      assert r == rest;
      ShownKeepsOrder(t, i, j);
      var a, b :| 0 <= a < b < |t| && t[a] == Some(rest[i]) && t[b] == Some(rest[j]);
      assert cs[a + 1] == Some(r[i]) && cs[b + 1] == Some(r[j]);
    }
  }

  /**
   * `getSmartPlaylists`: nothing without songs or with AI off; otherwise the candidates that exist and
   * have more than five songs, in candidate order, each within its cap.
   */
  function SmartPlaylists(songs: seq<Song>, artists: seq<Artist>, aiEnabled: bool, now: int, hour: int, draws: string -> seq<nat>): (r: seq<SmartPlaylist>)
    ensures songs == [] || !aiEnabled ==> r == []
    ensures songs != [] && aiEnabled ==> forall p :: p in r <==> Some(p) in Candidates(songs, artists, now, hour, draws) && |p.songs| > 5
    ensures forall p :: p in r ==> 5 < |p.songs| && exists i :: 0 <= i < 10 && p.id == CandidateId(i) && |p.songs| <= Cap(i)
  {
    if songs == [] || !aiEnabled then []
    else
      var cs := Candidates(songs, artists, now, hour, draws);
      var r := Shown(cs);
      forall p | p in r ensures Some(p) in cs && 5 < |p.songs| && exists i :: 0 <= i < 10 && p.id == CandidateId(i) && |p.songs| <= Cap(i) {
        var k :| 0 <= k < |r| && r[k] == p;
        ShownFrom(cs, k);
        var i :| 0 <= i < |cs| && cs[i] == Some(p) && |p.songs| > 5;
        assert WithinCap(cs[i], i);
      }
      forall p | Some(p) in cs && |p.songs| > 5 ensures p in r {
        var a :| 0 <= a < |cs| && cs[a] == Some(p);
        ShownHas(cs, a);
      }
      r
  }

  /** The shown playlists come in the order the candidates are listed. */
  lemma SmartPlaylistsInOrder(songs: seq<Song>, artists: seq<Artist>, aiEnabled: bool, now: int, hour: int, draws: string -> seq<nat>, i: nat, j: nat)
    requires i < j < |SmartPlaylists(songs, artists, aiEnabled, now, hour, draws)|
    ensures var r := SmartPlaylists(songs, artists, aiEnabled, now, hour, draws);
      exists a, b :: 0 <= a < b < 10 && r[i].id == CandidateId(a) && r[j].id == CandidateId(b)
  {
    var cs := Candidates(songs, artists, now, hour, draws);
    ListIsShownCandidates(songs, artists, aiEnabled, now, hour, draws);
    ShownIdsInOrder(cs, i, j);
  }

  /** Among candidates that each carry their own id, the shown ones come in increasing candidate order. */
  lemma ShownIdsInOrder(cs: seq<Option<SmartPlaylist>>, i: nat, j: nat)
    requires |cs| == 10 && forall k :: 0 <= k < 10 ==> WithinCap(cs[k], k)
    requires i < j < |Shown(cs)|
    ensures exists a, b :: 0 <= a < b < 10 && Shown(cs)[i].id == CandidateId(a) && Shown(cs)[j].id == CandidateId(b)
  {
    ShownKeepsOrder(cs, i, j);
    var a, b :| 0 <= a < b < |cs| && cs[a] == Some(Shown(cs)[i]) && cs[b] == Some(Shown(cs)[j]);
    assert WithinCap(cs[a], a) && WithinCap(cs[b], b);
  }

  /** With songs and AI on, the list is the shown candidates. */
  lemma ListIsShownCandidates(songs: seq<Song>, artists: seq<Artist>, aiEnabled: bool, now: int, hour: int, draws: string -> seq<nat>)
    requires SmartPlaylists(songs, artists, aiEnabled, now, hour, draws) != []
    ensures SmartPlaylists(songs, artists, aiEnabled, now, hour, draws) == Shown(Candidates(songs, artists, now, hour, draws))
  {
  }
}
