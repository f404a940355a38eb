/**
 * LRC synced-lyrics parsing and the normalisation of the lyrics oracle's answer
 * (`services/lyricsService.ts`).
 *
 * A line matches the unanchored pattern `\[(\d{2}):(\d{2})\.(\d{2,3})\](.*)`: the leftmost `[` that
 * starts a timestamp wins, the fraction takes three digits when a `]` follows them and two digits
 * otherwise, and the text is everything after the `]` up to the first line terminator (`.` does not
 * match one). The start time is `mm*60000 + ss*1000 + fraction padded on the right to 3 digits`.
 */
module LyricsService {
  import opened Optional
  import opened JsText
  import opened Types
  import opened Seqs

  /** The four capture groups of one match. */
  datatype LrcMatch = LrcMatch(minutes: string, seconds: string, fraction: string, text: string)

  /** The longest prefix without a line terminator: what a greedy `(.*)` captures. */
  function UpToLineEnd(s: string): (r: string)
    ensures |r| <= |s| && r == s[..|r|]
    ensures forall i :: 0 <= i < |r| ==> !IsLineTerminator(r[i])
    ensures |r| < |s| ==> IsLineTerminator(s[|r|])
  {
    if s == [] || IsLineTerminator(s[0]) then [] else [s[0]] + UpToLineEnd(s[1..])
  }

  /** The timestamp opening `[dd:dd.dd` at the start of `t`. */
  predicate StampHead(t: string) {
    |t| >= 10 && t[0] == '[' && IsDigit(t[1]) && IsDigit(t[2]) && t[3] == ':'
    && IsDigit(t[4]) && IsDigit(t[5]) && t[6] == '.' && IsDigit(t[7]) && IsDigit(t[8])
  }

  /** What the capture groups of a match always hold. */
  predicate WellFormed(m: LrcMatch) {
    |m.minutes| == 2 && |m.seconds| == 2 && 2 <= |m.fraction| <= 3
    && AllDigits(m.minutes) && AllDigits(m.seconds) && AllDigits(m.fraction)
    && forall i :: 0 <= i < |m.text| ==> !IsLineTerminator(m.text[i])
  }

  /** The pattern matched at the very start of `t`: a third fraction digit is taken when a `]` follows it. */
  function MatchStart(t: string): (r: Option<LrcMatch>)
    ensures r.Some? ==> WellFormed(r.value)
  {
    if !StampHead(t) then None
    else if |t| >= 11 && IsDigit(t[9]) && t[10] == ']' then
      Some(LrcMatch(t[1..3], t[4..6], t[7..10], UpToLineEnd(t[11..])))
    else if t[9] == ']' then
      Some(LrcMatch(t[1..3], t[4..6], t[7..9], UpToLineEnd(t[10..])))
    else None
  }

  /** The pattern matched at exactly position `p` of `line`. */
  function MatchAt(line: string, p: nat): (r: Option<LrcMatch>)
    ensures r.Some? ==> WellFormed(r.value)
  {
    if p <= |line| then MatchStart(line[p..]) else None
  }

  /** `line.match(regex)`: the leftmost match at or after position `p`. */
  function FirstMatch(line: string, p: nat): (r: Option<LrcMatch>)
    ensures r.None? ==> forall q :: p <= q <= |line| ==> MatchAt(line, q).None?
    ensures r.Some? ==> WellFormed(r.value)
    decreases |line| - p
  {
    if p > |line| then None
    else if MatchAt(line, p).Some? then MatchAt(line, p)
    else FirstMatch(line, p + 1)
  }

  /** `ms.padEnd(3, '0')` for the two- or three-digit fraction. */
  function PadFraction(f: string): (r: string)
    requires 2 <= |f| <= 3 && AllDigits(f)
    ensures |r| == 3 && AllDigits(r) && r[..|f|] == f
  {
    if |f| < 3 then f + "0" else f
  }

  /** The start time in milliseconds of the timestamp `[mm:ss.ff]`. */
  function TimestampMs(mm: string, ss: string, ff: string): int
    requires AllDigits(mm) && AllDigits(ss) && 2 <= |ff| <= 3 && AllDigits(ff)
  {
    DigitsValue(mm) * 60000 + DigitsValue(ss) * 1000 + DigitsValue(PadFraction(ff))
  }

  /** A two-digit fraction counts hundredths of a second and a three-digit one milliseconds. */
  lemma FractionUnits(ff: string)
    requires 2 <= |ff| <= 3 && AllDigits(ff)
    ensures DigitsValue(PadFraction(ff)) == if |ff| == 2 then DigitsValue(ff) * 10 else DigitsValue(ff)
  {
    var r := PadFraction(ff);
    if |ff| == 2 {
      assert r[..2] == ff;
    }
  }

  /** One line of LRC text: `Some` line when the pattern matches, `None` when the line is dropped. */
  function ParseLine(line: string): (r: Option<SyncedLyricLine>)
    ensures r.None? <==> FirstMatch(line, 0).None?
  {
    match FirstMatch(line, 0)
    case None => None
    case Some(m) =>
      Some(SyncedLyricLine(Trim(m.text), TimestampMs(m.minutes, m.seconds, m.fraction)))
  }

  /** The `map`/`filter` chain over the lines: the parsed lines of the matching ones, in input order. */
  function ParseLines(lines: seq<string>): (r: seq<SyncedLyricLine>)
    ensures |r| <= |lines|
  {
    FilterMap(lines, ParseLine)
  }

  /**
   * `parseSyncedLyrics`: `None` for absent or empty text and when no line matches; otherwise the
   * parsed lines, never an empty list.
   */
  function ParseSyncedLyrics(text: Option<string>): (r: Option<seq<SyncedLyricLine>>)
    ensures !Truthy(text) ==> r.None?
    ensures r.Some? ==> |r.value| > 0 && r.value == ParseLines(Split(text.value, '\n'))
    ensures Truthy(text) && ParseLines(Split(text.value, '\n')) != [] ==> r.Some?
  {
    if !Truthy(text) then None
    else
      var parsed := ParseLines(Split(text.value, '\n'));
      if |parsed| > 0 then Some(parsed) else None
  }

  /** Parsing distributes over the lines: lines are handled one by one and keep their order. */
  lemma ParseLinesAppend(a: seq<string>, b: seq<string>)
    ensures ParseLines(a + b) == ParseLines(a) + ParseLines(b)
  {
    FilterMapAppend(a, b, ParseLine);
  }

  /** The LRC line `[mm:ss.ff]text` as a string. */
  function LrcLine(mm: string, ss: string, ff: string, text: string): string {
    "[" + mm + ":" + ss + "." + ff + "]" + text
  }

  /**
   * A well-formed timestamp parses to its start time, whatever the seconds are (they are not
   * range-checked), and the text is the trimmed rest of the line.
   */
  lemma ParseWellFormedLine(mm: string, ss: string, ff: string, text: string)
    requires |mm| == 2 && |ss| == 2 && (|ff| == 2 || |ff| == 3)
    requires AllDigits(mm) && AllDigits(ss) && AllDigits(ff)
    requires forall i :: 0 <= i < |text| ==> !IsLineTerminator(text[i])
    ensures ParseLine(LrcLine(mm, ss, ff, text)) == Some(SyncedLyricLine(Trim(text), TimestampMs(mm, ss, ff)))
  {
    var line := LrcLine(mm, ss, ff, text);
    var m := LrcMatch(mm, ss, ff, text);
    UpToLineEndOfPlain(text);
    StampLine(mm, ss, ff, text);
    assert line[0..] == line;
    assert MatchAt(line, 0) == Some(m);
    assert FirstMatch(line, 0) == Some(m);
  }

  lemma StampLine(mm: string, ss: string, ff: string, text: string)
    requires |mm| == 2 && |ss| == 2 && (|ff| == 2 || |ff| == 3)
    requires AllDigits(mm) && AllDigits(ss) && AllDigits(ff)
    requires UpToLineEnd(text) == text
    ensures MatchStart(LrcLine(mm, ss, ff, text)) == Some(LrcMatch(mm, ss, ff, text))
  {
    var line := LrcLine(mm, ss, ff, text);
    var k := |ff|;
    assert line == ['[', mm[0], mm[1], ':', ss[0], ss[1], '.'] + ff + [']'] + text;
    assert line[1..3] == mm && line[4..6] == ss && line[7..7 + k] == ff;
    assert line[8 + k..] == text;
    assert StampHead(line);
  }

  lemma {:induction false} UpToLineEndOfPlain(s: string)
    requires forall i :: 0 <= i < |s| ==> !IsLineTerminator(s[i])
    ensures UpToLineEnd(s) == s
  {
    if s != [] {
      UpToLineEndOfPlain(s[1..]);
      assert s == [s[0]] + s[1..];
    }
  }

  /** `[mm:ss.ff]` and `[mm:ss.ff0]` start at the same millisecond: two fraction digits are hundredths. */
  lemma TwoAndThreeDigitFractionsAgree(mm: string, ss: string, ff: string, text: string)
    requires |mm| == 2 && |ss| == 2 && |ff| == 2
    requires AllDigits(mm) && AllDigits(ss) && AllDigits(ff)
    requires forall i :: 0 <= i < |text| ==> !IsLineTerminator(text[i])
    ensures ParseLine(LrcLine(mm, ss, ff, text)) == ParseLine(LrcLine(mm, ss, ff + "0", text))
  {
    var f3 := ff + "0";
    assert AllDigits(f3) by {
      assert forall i :: 0 <= i < 3 ==> f3[i] == if i < 2 then ff[i] else '0';
    }
    assert PadFraction(ff) == f3 == PadFraction(f3);
    assert TimestampMs(mm, ss, ff) == TimestampMs(mm, ss, f3);
    ParseWellFormedLine(mm, ss, ff, text);
    ParseWellFormedLine(mm, ss, f3, text);
  }

  /** Text without any `[` before a timestamp does not hide it: the pattern is not anchored. */
  lemma UnanchoredMatch(prefix: string, rest: string)
    requires '[' !in prefix
    ensures FirstMatch(prefix + rest, 0) == FirstMatch(rest, 0)
  {
    SkipPrefix(prefix, rest, 0);
  }

  lemma {:induction false} SkipPrefix(prefix: string, rest: string, p: nat)
    requires '[' !in prefix && p <= |prefix|
    ensures FirstMatch(prefix + rest, p) == FirstMatch(rest, 0)
    decreases |prefix| - p
  {
    var line := prefix + rest;
    if p < |prefix| {
      assert line[p..][0] == prefix[p];
      assert MatchAt(line, p).None?;
      SkipPrefix(prefix, rest, p + 1);
    } else {
      ShiftMatches(prefix, rest, 0);
    }
  }

  /** Matching in `prefix + rest` from position `|prefix| + q` is matching in `rest` from `q`. */
  lemma {:induction false} ShiftMatches(prefix: string, rest: string, q: nat)
    requires q <= |rest| + 1
    ensures FirstMatch(prefix + rest, |prefix| + q) == FirstMatch(rest, q)
    decreases |rest| + 1 - q
  {
    if q <= |rest| {
      assert (prefix + rest)[|prefix| + q..] == rest[q..];
      ShiftMatches(prefix, rest, q + 1);
    }
  }

  /**
   * Lines given one per row come back in the order given, non-matching ones dropped and nothing
   * sorted: the parse of the joined text is the line-by-line parse.
   */
  lemma ParseJoinedLines(lines: seq<string>)
    requires |lines| >= 1
    requires forall i :: 0 <= i < |lines| ==> '\n' !in lines[i]
    requires ParseLines(lines) != []
    ensures ParseSyncedLyrics(Some(Join(lines, '\n'))) == Some(ParseLines(lines))
  {
    SplitJoin(lines, '\n');
    if Join(lines, '\n') == "" {
      assert Split("", '\n') == [""];
    }
  }

  lemma TwoDigitValue(d: string)
    requires |d| == 2 && AllDigits(d)
    ensures DigitsValue(d) == DigitValue(d[0]) * 10 + DigitValue(d[1])
  {
    var h := d[..1];
    assert h[..0] == [] && h[0] == d[0];
    assert DigitsValue(h) == DigitValue(d[0]);
    assert d[..|d| - 1] == h;
  }

  /** The two timestamps of the format's example: `[00:01.50]` is 1500 ms and `[00:03.00]` is 3000 ms. */
  lemma ExampleTimestamps()
    ensures TimestampMs("00", "01", "50") == 1500
    ensures TimestampMs("00", "03", "00") == 3000
  {
    TwoDigitValue("00");
    TwoDigitValue("01");
    TwoDigitValue("03");
    TwoDigitValue("50");
    FractionUnits("50");
    FractionUnits("00");
  }

  /** Two parseable lines separated by a newline give two entries, in that order. */
  lemma TwoLines(a: string, b: string)
    requires '\n' !in a && '\n' !in b
    requires ParseLine(a).Some? && ParseLine(b).Some?
    ensures ParseSyncedLyrics(Some(a + "\n" + b)) == Some([ParseLine(a).value, ParseLine(b).value])
  {
    JoinTwo(a, b, '\n');
    FilterMapTwo(a, b, ParseLine);
    ParseJoinedLines([a, b]);
  }

  /** A well-formed line contains no newline, so it stays one line of a multi-line text. */
  lemma NoNewline(mm: string, ss: string, ff: string, text: string)
    requires AllDigits(mm) && AllDigits(ss) && AllDigits(ff)
    requires forall i :: 0 <= i < |text| ==> !IsLineTerminator(text[i])
    ensures '\n' !in LrcLine(mm, ss, ff, text)
  {
    var line := LrcLine(mm, ss, ff, text);
    forall i | 0 <= i < |line| ensures line[i] != '\n' {
      if i >= |line| - |text| {
        assert line[i] == text[i - (|line| - |text|)];
      }
    }
  }

  /** The oracle's `isExplicit` field as JSON delivered it: `true`, `false`, or anything else (absent included). */
  datatype JsonFlag = JsonTrue | JsonFalse | JsonOther

  /** The oracle's parsed answer; string fields may be missing. */
  datatype OracleLyrics = OracleLyrics(plainLyrics: Option<string>, syncedLyrics: Option<string>, isExplicit: JsonFlag)

  /**
   * The normalisation in `fetchLyrics`: no answer gives `None`; an empty plain text becomes `None`,
   * the LRC text is parsed, and the explicit flag is set only by a JSON `true`.
   */
  function NormaliseLyrics(answer: Option<OracleLyrics>): (r: Option<LyricsData>)
    ensures answer.None? <==> r.None?
    ensures r.Some? ==> (r.value.plainLyrics.None? <==> !Truthy(answer.value.plainLyrics))
    ensures r.Some? && r.value.plainLyrics.Some? ==> r.value.plainLyrics == answer.value.plainLyrics
    ensures r.Some? ==> (r.value.isExplicit <==> answer.value.isExplicit == JsonTrue)
    ensures r.Some? ==> r.value.syncedLyrics == ParseSyncedLyrics(answer.value.syncedLyrics)
    ensures r.Some? ==> (r.value.syncedLyrics.Some? ==> |r.value.syncedLyrics.value| > 0)
  {
    match answer
    case None => None
    case Some(a) =>
      Some(LyricsData(
        if Truthy(a.plainLyrics) then a.plainLyrics else None,
        ParseSyncedLyrics(a.syncedLyrics),
        a.isExplicit == JsonTrue))
  }
}
