/**
 * Reading a dropped audio file's tags (`services/metadataReader.ts`): the record built from the tag
 * reader's result and the audio element's duration, with its defaults for a missing title, artist
 * or album and its parse of the track tag.
 */
module MetadataReader {
  import opened Optional
  import opened JsText

  /** A track tag as the tag reader hands it over: a number or a text such as `"3/12"`. */
  datatype TrackTag = TrackNumber(n: nat) | TrackText(text: string)

  /** An embedded picture: its MIME type and its bytes already in base64. */
  datatype Picture = Picture(format: string, base64: string)

  /** The tags the reader found; `lyrics` is the tag's `lyrics.lyrics`. */
  datatype Tags = Tags(
    title: Option<string>,
    artist: Option<string>,
    album: Option<string>,
    picture: Option<Picture>,
    lyrics: Option<string>,
    track: Option<TrackTag>)

  /** The part of a song the reader fills in. */
  datatype SongMetadata = SongMetadata(
    title: string,
    artist: string,
    album: string,
    coverArt: Option<string>,
    duration: real,
    lyrics: Option<string>,
    trackNumber: Option<int>,
    playCount: int,
    dateAdded: int)

  /** How the returned promise settles. */
  datatype Outcome = Resolved(metadata: SongMetadata) | Rejected(message: string)

  /** `if (track)`: a zero number and an empty text are falsy. */
  predicate TrackTruthy(t: TrackTag) {
    match t
    case TrackNumber(n) => n != 0
    case TrackText(s) => s != ""
  }

  /** `String(track)`. */
  function TrackString(t: TrackTag): string {
    match t
    case TrackNumber(n) => NatToString(n)
    case TrackText(s) => s
  }

  /** The track number: `parseInt` of the text before the first `/`; absent when there is no tag or no digits. */
  function ParseTrack(track: Option<TrackTag>): (r: Option<int>)
    ensures track.None? ==> r.None?
    ensures track.Some? && TrackTruthy(track.value) ==> r == ParseInt(Split(TrackString(track.value), '/')[0])
  {
    if track.Some? && TrackTruthy(track.value) then ParseInt(Split(TrackString(track.value), '/')[0]) else None
  }

  /** A track tag `"n/m"` gives track `n`. */
  lemma TrackOfTotal(n: nat, m: nat)
    ensures ParseTrack(Some(TrackText(NatToString(n) + "/" + NatToString(m)))) == Some(n)
  {
    var w := NatToString(n);
    assert '/' !in w by {
      assert forall i :: 0 <= i < |w| ==> IsDigit(w[i]);
    }
    assert w + "/" + NatToString(m) == w + ['/'] + NatToString(m);
    FirstPiece(w, NatToString(m), '/');
    ParseIntNatToString(n);
  }

  /** A numeric track tag other than 0 gives itself. */
  lemma NumericTrack(n: nat)
    requires n != 0
    ensures ParseTrack(Some(TrackNumber(n))) == Some(n)
  {
    var w := NatToString(n);
    assert '/' !in w by {
      assert forall i :: 0 <= i < |w| ==> IsDigit(w[i]);
    }
    assert w + [] == w;
    SplitPrefix(w, [], '/');
    ParseIntNatToString(n);
  }

  /** A track text with no digit before its first `/` gives no track number. */
  lemma NoDigitsNoTrack(t: string, rest: string)
    requires t != "" && '/' !in t && !IsDigit(t[0]) && !IsJsSpace(t[0]) && t[0] != '-' && t[0] != '+'
    ensures ParseTrack(Some(TrackText(t + "/" + rest))) == None
  {
    assert t + "/" + rest == t + ['/'] + rest;
    FirstPiece(t, rest, '/');
  }

  /** The index of the last `.` in `s`, or -1. */
  function LastDot(s: string): (r: int)
    ensures -1 <= r < |s|
    ensures r >= 0 ==> s[r] == '.'
    ensures forall i :: r < i < |s| ==> s[i] != '.'
  {
    if s == [] then -1
    else if s[|s| - 1] == '.' then |s| - 1
    else LastDot(s[..|s| - 1])
  }

  /**
   * `name.replace(/\.[^/.]+$/, "")`: the file name without its extension, which is a dot followed by
   * at least one character, none of them `/` or `.`, at the end of the name.
   */
  function StripExtension(name: string): (r: string)
    ensures |r| <= |name| && r == name[..|r|]
    ensures r != name ==> (name[|r|] == '.' && |name| > |r| + 1
      && forall i :: |r| < i < |name| ==> name[i] != '.' && name[i] != '/')
  {
    var d := LastDot(name);
    if d >= 0 && d + 1 < |name| && '/' !in name[d + 1..] then name[..d] else name
  }

  /** The extension after the last dot is removed, and only that one. */
  lemma StripsOneExtension(base: string, ext: string)
    requires ext != "" && '.' !in ext && '/' !in ext
    ensures StripExtension(base + "." + ext) == base
  {
    var name := base + "." + ext;
    assert name[|base|] == '.';
    assert forall i :: |base| < i < |name| ==> name[i] == ext[i - |base| - 1];
    assert LastDot(name) == |base|;
    assert name[|base| + 1..] == ext;
    assert name[..|base|] == base;
  }

  /** A name whose last dot is not followed by a proper extension is kept whole. */
  lemma KeepsNameWithoutExtension(name: string)
    requires '.' !in name || name[|name| - 1] == '.'
    ensures StripExtension(name) == name
  {
  }

  /** `value || fallback` for an optional tag string. */
  function OrDefault(value: Option<string>, fallback: string): (r: string)
    ensures value.Some? && value.value != "" ==> r == value.value
    ensures value.None? || value.value == "" ==> r == fallback
  {
    if value.Some? && value.value != "" then value.value else fallback
  }

  /**
   * `readMetadata`: with tags, the tagged record, or "Failed to load audio duration" when the audio
   * cannot be loaded; without tags, the file-name record, or "Failed to read media tags and load
   * duration.". The clock's `Date.now()` is `now`; `duration` is the audio element's, `None` when it
   * fails to load.
   */
  function ReadMetadata(fileName: string, tags: Option<Tags>, duration: Option<real>, now: int): (r: Outcome)
    ensures duration.None? && tags.Some? ==> r == Rejected("Failed to load audio duration")
    ensures duration.None? && tags.None? ==> r == Rejected("Failed to read media tags and load duration.")
    ensures duration.Some? <==> r.Resolved?
    ensures r.Resolved? ==>
      var m := r.metadata;
      m.duration == duration.value && m.playCount == 0 && m.dateAdded == now
      && (tags.None? ==> (m.title == StripExtension(fileName) && m.artist == "Unknown Artist"
            && m.album == "Unknown Album" && m.coverArt.None? && m.lyrics.None? && m.trackNumber.None?))
      && (tags.Some? ==> (m.title == OrDefault(tags.value.title, StripExtension(fileName))
            && m.artist == OrDefault(tags.value.artist, "Unknown Artist")
            && m.album == OrDefault(tags.value.album, "Unknown Album")
            && m.lyrics == tags.value.lyrics && m.trackNumber == ParseTrack(tags.value.track)
            && (tags.value.picture.None? ==> m.coverArt.None?)
            && (tags.value.picture.Some? ==>
                  m.coverArt == Some("data:" + tags.value.picture.value.format + ";base64," + tags.value.picture.value.base64))))
  {
    match tags
    case Some(t) =>
      if duration.None? then Rejected("Failed to load audio duration")
      else
        var cover := match t.picture
          case Some(p) => Some("data:" + p.format + ";base64," + p.base64)
          case None => None;
        Resolved(SongMetadata(OrDefault(t.title, StripExtension(fileName)), OrDefault(t.artist, "Unknown Artist"),
          OrDefault(t.album, "Unknown Album"), cover, duration.value, t.lyrics, ParseTrack(t.track), 0, now))
    case None =>
      if duration.None? then Rejected("Failed to read media tags and load duration.")
      else
        Resolved(SongMetadata(StripExtension(fileName), "Unknown Artist", "Unknown Album", None, duration.value,
          None, None, 0, now))
  }

  /** A file with no tags and a file whose tags are all empty get the same title, artist and album. */
  lemma EmptyTagsLikeNoTags(fileName: string, duration: real, now: int)
    ensures var a := ReadMetadata(fileName, None, Some(duration), now);
      var b := ReadMetadata(fileName, Some(Tags(Some(""), None, Some(""), None, None, None)), Some(duration), now);
      a.metadata.title == b.metadata.title && a.metadata.artist == b.metadata.artist && a.metadata.album == b.metadata.album
  {
  }
}
