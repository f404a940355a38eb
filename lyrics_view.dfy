/**
 * The lyrics page (`pages/LyricsView.tsx`): which synced line is active at the playback position,
 * and which of the four lyric displays the page shows for the player's state.
 */
module LyricsView {
  import opened Optional
  import opened Types
  import opened JsText
  import opened MusicContext

  /** The non-breaking space the page prints in place of an empty line. */
  const Nbsp := "\U{00A0}"

  /** A synced line's start, in seconds (its `startTime` is in milliseconds). */
  function StartOf(line: SyncedLyricLine): real {
    line.startTime as real / 1000.0
  }

  /** Where line `i` stops being current: the next line's start, or the song's duration for the last line. */
  function EndOf(lines: seq<SyncedLyricLine>, i: nat, duration: real): real
    requires i < |lines|
  {
    if i + 1 < |lines| then StartOf(lines[i + 1]) else duration
  }

  /** Whether playback time `t` (seconds) falls in line `i`'s half-open interval. */
  predicate IsCurrent(lines: seq<SyncedLyricLine>, i: nat, t: real, duration: real)
    requires i < |lines|
  {
    StartOf(lines[i]) <= t < EndOf(lines, i, duration)
  }

  /** The first line from index `i` on that is current, or -1. */
  function CurrentFrom(lines: seq<SyncedLyricLine>, t: real, duration: real, i: nat): (r: int)
    requires i <= |lines|
    ensures r == -1 || i <= r < |lines|
    ensures r >= 0 ==> IsCurrent(lines, r, t, duration)
    ensures forall j :: i <= j < |lines| && (r == -1 || j < r) ==> !IsCurrent(lines, j, t, duration)
    decreases |lines| - i
  {
    if i == |lines| then -1
    else if IsCurrent(lines, i, t, duration) then i
    else CurrentFrom(lines, t, duration, i + 1)
  }

  /**
   * `currentLineIndex`: the index of the first synced line whose interval holds the playback
   * position, -1 when none does.
   */
  function CurrentLineIndex(lines: seq<SyncedLyricLine>, t: real, duration: real): (r: int)
    ensures -1 <= r < |lines|
    ensures r >= 0 ==> (IsCurrent(lines, r, t, duration)
      && forall j :: 0 <= j < r ==> !IsCurrent(lines, j, t, duration))
    ensures r == -1 <==> forall j :: 0 <= j < |lines| ==> !IsCurrent(lines, j, t, duration)
  {
    CurrentFrom(lines, t, duration, 0)
  }

  /** The lines' start times never go down. */
  predicate Ascending(lines: seq<SyncedLyricLine>) {
    forall a, b :: 0 <= a <= b < |lines| ==> lines[a].startTime <= lines[b].startTime
  }

  /** With ascending start times the intervals do not overlap: at most one line is current. */
  lemma CurrentIsUnique(lines: seq<SyncedLyricLine>, t: real, duration: real, i: nat, j: nat)
    requires Ascending(lines)
    requires i < |lines| && j < |lines|
    requires IsCurrent(lines, i, t, duration) && IsCurrent(lines, j, t, duration)
    ensures i == j
  {
    EndsBeforeLaterStart(lines, duration, i, j);
    EndsBeforeLaterStart(lines, duration, j, i);
  }

  /** With ascending start times a line ends no later than any later line starts. */
  lemma EndsBeforeLaterStart(lines: seq<SyncedLyricLine>, duration: real, i: nat, j: nat)
    requires Ascending(lines)
    requires i < |lines| && j < |lines|
    ensures i < j ==> EndOf(lines, i, duration) <= StartOf(lines[j])
  {
    if i < j {
      assert lines[i + 1].startTime <= lines[j].startTime;
    }
  }

  /** So the highlighted line is the one line that is current, whichever order the search takes. */
  lemma CurrentLineIsTheCurrentLine(lines: seq<SyncedLyricLine>, t: real, duration: real, i: nat)
    requires Ascending(lines)
    requires i < |lines| && IsCurrent(lines, i, t, duration)
    ensures CurrentLineIndex(lines, t, duration) == i
  {
    var r := CurrentLineIndex(lines, t, duration);
    CurrentIsUnique(lines, t, duration, i, r as nat);
  }

  /** Before the first line starts, nothing is highlighted. */
  lemma NoneBeforeFirstLine(lines: seq<SyncedLyricLine>, t: real, duration: real)
    requires Ascending(lines) && |lines| > 0
    requires t < StartOf(lines[0])
    ensures CurrentLineIndex(lines, t, duration) == -1
  {
    forall j | 0 <= j < |lines|
      ensures !IsCurrent(lines, j, t, duration)
    {
      assert lines[0].startTime <= lines[j].startTime;
    }
  }

  /**
   * At or after the song's duration nothing is highlighted, as long as the last line starts no
   * later than the duration.
   */
  lemma NoneAfterDuration(lines: seq<SyncedLyricLine>, t: real, duration: real)
    requires Ascending(lines) && |lines| > 0
    requires StartOf(lines[|lines| - 1]) <= duration <= t
    ensures CurrentLineIndex(lines, t, duration) == -1
  {
    forall j | 0 <= j < |lines|
      ensures !IsCurrent(lines, j, t, duration)
    {
      if j + 1 < |lines| {
        assert lines[j + 1].startTime <= lines[|lines| - 1].startTime;
      }
    }
  }

  /** From line `i`'s start up to the duration, the search from `i` finds a line. */
  lemma {:induction false} FoundFrom(lines: seq<SyncedLyricLine>, t: real, duration: real, i: nat)
    requires i < |lines|
    requires StartOf(lines[i]) <= t < duration
    ensures CurrentFrom(lines, t, duration, i) >= 0
    decreases |lines| - i
  {
    if !IsCurrent(lines, i, t, duration) {
      FoundFrom(lines, t, duration, i + 1);
    }
  }

  /** Between the first line's start and the song's end some line is always highlighted. */
  lemma SomeLineWhilePlaying(lines: seq<SyncedLyricLine>, t: real, duration: real)
    requires |lines| > 0
    requires StartOf(lines[0]) <= t < duration
    ensures 0 <= CurrentLineIndex(lines, t, duration) < |lines|
  {
    FoundFrom(lines, t, duration, 0);
  }

  /** `line || ' '`: an empty line is printed as a non-breaking space. */
  function Shown(line: string): (r: string)
    ensures r != ""
    ensures line != "" ==> r == line
  {
    if line == "" then Nbsp else line
  }

  /** The texts of the synced lines as printed. */
  function LineTexts(lines: seq<SyncedLyricLine>): (r: seq<string>)
    ensures |r| == |lines|
    ensures forall i :: 0 <= i < |r| ==> r[i] == Shown(lines[i].text)
  {
    if lines == [] then [] else [Shown(lines[0].text)] + LineTexts(lines[1..])
  }

  /** The unsynced lyrics as paragraphs: split on newlines, an empty piece printed as a non-breaking space. */
  function Paragraphs(text: string): (r: seq<string>)
  {
    ShownAll(Split(text, '\n'))
  }

  function ShownAll(pieces: seq<string>): (r: seq<string>)
    ensures |r| == |pieces|
    ensures forall i :: 0 <= i < |r| ==> r[i] == Shown(pieces[i])
  {
    if pieces == [] then [] else [Shown(pieces[0])] + ShownAll(pieces[1..])
  }

  /**
   * Every line of the text becomes one paragraph, none of them empty, the non-empty ones verbatim,
   * and the lines joined back with newlines are the text.
   */
  lemma ParagraphsKeepLines(text: string)
    ensures |Paragraphs(text)| == |Split(text, '\n')|
    ensures forall i :: 0 <= i < |Paragraphs(text)| ==>
      Paragraphs(text)[i] != "" && (Split(text, '\n')[i] != "" ==> Paragraphs(text)[i] == Split(text, '\n')[i])
    ensures Join(Split(text, '\n'), '\n') == text
  {
    JoinSplit(text, '\n');
  }

  /** What the page shows. */
  datatype Display =
    | NoSongPlaying
    | LoadingLyrics
    | SyncedLines(texts: seq<string>, active: int)
    | UnsyncedParagraphs(paragraphs: seq<string>)
    | NoLyricsFound

  /**
   * The page for the player's state at playback time `t`: with no song a placeholder; otherwise
   * loading first, then non-empty synced lyrics with the current line, then unsynced text, then
   * "No lyrics found".
   */
  function PageFor(p: Player, t: real): (d: Display)
    ensures d.NoSongPlaying? <==> p.currentSong.None?
    ensures d.LoadingLyrics? <==> p.currentSong.Some? && p.loadingLyrics
    ensures d.SyncedLines? <==> (p.currentSong.Some? && !p.loadingLyrics
      && p.syncedLyrics.Some? && |p.syncedLyrics.value| > 0)
    ensures d.UnsyncedParagraphs? <==> (p.currentSong.Some? && !p.loadingLyrics
      && (p.syncedLyrics.None? || |p.syncedLyrics.value| == 0) && Truthy(p.unsyncedLyrics))
    ensures d.SyncedLines? ==> (|d.texts| == |p.syncedLyrics.value|
      && (forall i :: 0 <= i < |d.texts| ==> d.texts[i] == Shown(p.syncedLyrics.value[i].text))
      && d.active == CurrentLineIndex(p.syncedLyrics.value, t, p.currentSong.value.duration))
    ensures d.UnsyncedParagraphs? ==> d.paragraphs == Paragraphs(p.unsyncedLyrics.value)
  {
    if p.currentSong.None? then NoSongPlaying
    else if p.loadingLyrics then LoadingLyrics
    else if p.syncedLyrics.Some? && |p.syncedLyrics.value| > 0 then
      SyncedLines(LineTexts(p.syncedLyrics.value), CurrentLineIndex(p.syncedLyrics.value, t, p.currentSong.value.duration))
    else if Truthy(p.unsyncedLyrics) then UnsyncedParagraphs(Paragraphs(p.unsyncedLyrics.value))
    else NoLyricsFound
  }

  /** Once a song has started its lyrics are no longer loading, so the page shows lyrics or says there are none. */
  lemma StartedSongShowsLyrics(p: Player, song: Song, t: real)
    ensures PageFor(SongShown(p, song), t).SyncedLines?
      || PageFor(SongShown(p, song), t).UnsyncedParagraphs?
      || PageFor(SongShown(p, song), t).NoLyricsFound?
    ensures PageFor(SongShown(p, song), t).NoLyricsFound? <==>
      (song.syncedLyrics.None? || |song.syncedLyrics.value| == 0) && !Truthy(song.lyrics)
  {
  }
}
