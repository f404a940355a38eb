/**
 * The parts of the JavaScript string library that the player's logic depends on, over `string`
 * (a sequence of Unicode scalar values): `trim`, `split` on one character, ASCII `toLowerCase`,
 * `includes`, `parseInt(_, 10)` and number-to-string for non-negative integers.
 */
module JsText {
  import opened Optional

  /** JavaScript's WhiteSpace and LineTerminator characters: what `trim` removes and `parseInt` skips. */
  predicate IsJsSpace(c: char) {
    || c == '\t' || c == '\n' || c == '\U{B}' || c == '\U{C}' || c == '\r' || c == ' '
    || c == '\U{A0}' || c == '\U{1680}' || ('\U{2000}' <= c <= '\U{200A}')
    || c == '\U{2028}' || c == '\U{2029}' || c == '\U{202F}' || c == '\U{205F}'
    || c == '\U{3000}' || c == '\U{FEFF}'
  }

  /** The characters that end a regular-expression `.` match: the LineTerminators. */
  predicate IsLineTerminator(c: char) {
    c == '\n' || c == '\r' || c == '\U{2028}' || c == '\U{2029}'
  }

  /** `trimStart`: drop the leading white space. */
  function TrimStart(s: string): (r: string)
    ensures |r| <= |s| && r == s[|s| - |r|..]
    ensures r == [] || !IsJsSpace(r[0])
    ensures forall i :: 0 <= i < |s| - |r| ==> IsJsSpace(s[i])
  {
    if s != [] && IsJsSpace(s[0]) then TrimStart(s[1..]) else s
  }

  /** `trimEnd`: drop the trailing white space. */
  function TrimEnd(s: string): (r: string)
    ensures |r| <= |s| && r == s[..|r|]
    ensures r == [] || !IsJsSpace(r[|r| - 1])
    ensures forall i :: |r| <= i < |s| ==> IsJsSpace(s[i])
  {
    if s != [] && IsJsSpace(s[|s| - 1]) then TrimEnd(s[..|s| - 1]) else s
  }

  /** `trim`: the longest infix with no white space at either end. */
  function Trim(s: string): (r: string)
    ensures |r| <= |s|
    ensures r == [] || (!IsJsSpace(r[0]) && !IsJsSpace(r[|r| - 1]))
    ensures exists front, back :: (s == front + r + back && AllSpace(front) && AllSpace(back))
  {
    TrimSplits(s);
    TrimEnd(TrimStart(s))
  }

  /** Every character of `s` is white space. */
  predicate AllSpace(s: string) {
    forall i :: 0 <= i < |s| ==> IsJsSpace(s[i])
  }

  /** What `trim` removes is white space at the two ends. */
  lemma TrimSplits(s: string)
    ensures var r := TrimEnd(TrimStart(s));
      exists front, back :: (s == front + r + back && AllSpace(front) && AllSpace(back))
  {
    var t := TrimStart(s);
    var r := TrimEnd(t);
    var front, back := LeadingSpace(s), TrailingSpace(t);
    assert s == front + (r + back);
    assert front + (r + back) == front + r + back;
    SpaceAround(s, r, front, back);
  }

  /** The white space `trimStart` drops. */
  function LeadingSpace(s: string): (f: string)
    ensures AllSpace(f) && s == f + TrimStart(s)
  {
    var f := s[..|s| - |TrimStart(s)|];
    assert forall i :: 0 <= i < |f| ==> f[i] == s[i];
    f
  }

  /** The white space `trimEnd` drops. */
  function TrailingSpace(t: string): (b: string)
    ensures AllSpace(b) && t == TrimEnd(t) + b
  {
    var b := t[|TrimEnd(t)|..];
    assert forall i :: 0 <= i < |b| ==> b[i] == t[|TrimEnd(t)| + i];
    b
  }

  /** Named white-space ends witness the split. */
  lemma SpaceAround(s: string, r: string, front: string, back: string)
    requires s == front + r + back && AllSpace(front) && AllSpace(back)
    ensures exists f, b :: (s == f + r + b && AllSpace(f) && AllSpace(b))
  {
  }

  /** A string whose two ends are not white space is its own trim. */
  lemma TrimKeepsTrimmed(s: string)
    requires s == [] || (!IsJsSpace(s[0]) && !IsJsSpace(s[|s| - 1]))
    ensures Trim(s) == s
  {
  }

  /** `s.split(sep)` for a one-character separator: the pieces between separators, always at least one. */
  function Split(s: string, sep: char): (r: seq<string>)
    ensures |r| >= 1
    ensures forall i :: 0 <= i < |r| ==> sep !in r[i]
  {
    if s == [] then [""]
    else if s[0] == sep then [""] + Split(s[1..], sep)
    else
      var rest := Split(s[1..], sep);
      [[s[0]] + rest[0]] + rest[1..]
  }

  /** `parts.join(sep)`. */
  function Join(parts: seq<string>, sep: char): string {
    if |parts| == 0 then ""
    else if |parts| == 1 then parts[0]
    else parts[0] + [sep] + Join(parts[1..], sep)
  }

  /** Two pieces join around one separator. */
  lemma JoinTwo(a: string, b: string, sep: char)
    ensures Join([a, b], sep) == a + [sep] + b
  {
    assert [a, b][1..] == [b];
  }

  /** Joining the pieces of a split gives back the string. */
  lemma {:induction false} JoinSplit(s: string, sep: char)
    ensures Join(Split(s, sep), sep) == s
  {
    if s == [] {
    } else if s[0] == sep {
      JoinSplit(s[1..], sep);
      assert s == [sep] + s[1..];
    } else {
      JoinSplit(s[1..], sep);
      var rest := Split(s[1..], sep);
      assert s == [s[0]] + s[1..];
      if |rest| == 1 {
      } else {
        assert Join(rest, sep) == rest[0] + [sep] + Join(rest[1..], sep);
        assert [[s[0]] + rest[0]] + rest[1..] == [[s[0]] + rest[0]] + rest[1..];
        assert ([[s[0]] + rest[0]] + rest[1..])[1..] == rest[1..];
      }
    }
  }

  /** Splitting a string that begins with a separator-free piece `p`. */
  lemma {:induction false} SplitPrefix(p: string, tail: string, sep: char)
    requires sep !in p
    ensures Split(p + tail, sep) == [p + Split(tail, sep)[0]] + Split(tail, sep)[1..]
  {
    if p == [] {
      assert p + tail == tail;
      var r := Split(tail, sep);
      assert p + r[0] == r[0];
      assert r == [r[0]] + r[1..];
    } else {
      assert (p + tail)[1..] == p[1..] + tail;
      SplitPrefix(p[1..], tail, sep);
      assert [p[0]] + (p[1..] + Split(tail, sep)[0]) == p + Split(tail, sep)[0];
    }
  }

  /** The first piece of a split is everything before the first separator. */
  lemma FirstPiece(w: string, rest: string, sep: char)
    requires sep !in w
    ensures Split(w + [sep] + rest, sep)[0] == w
  {
    assert w + [sep] + rest == w + ([sep] + rest);
    SplitPrefix(w, [sep] + rest, sep);
    assert ([sep] + rest)[1..] == rest;
  }

  /** Splitting the join of separator-free pieces gives back the pieces. */
  lemma {:induction false} SplitJoin(parts: seq<string>, sep: char)
    requires |parts| >= 1
    requires forall i :: 0 <= i < |parts| ==> sep !in parts[i]
    ensures Split(Join(parts, sep), sep) == parts
  {
    if |parts| == 1 {
      SplitPrefix(parts[0], "", sep);
      assert parts[0] + "" == parts[0];
    } else {
      var rest := Join(parts[1..], sep);
      SplitJoin(parts[1..], sep);
      assert Join(parts, sep) == parts[0] + ([sep] + rest);
      SplitPrefix(parts[0], [sep] + rest, sep);
      assert ([sep] + rest)[1..] == rest;
      assert Split([sep] + rest, sep) == [""] + Split(rest, sep);
      assert parts[0] + "" == parts[0];
      assert parts == [parts[0]] + parts[1..];
    }
  }

  /** ASCII lower-casing of one character; every other character is left as it is. */
  function LowerChar(c: char): char {
    if 'A' <= c <= 'Z' then (c as int + 32) as char else c
  }

  /** `toLowerCase`, restricted to the ASCII letters. */
  function ToLower(s: string): (r: string)
    ensures |r| == |s|
  {
    seq(|s|, i requires 0 <= i < |s| => LowerChar(s[i]))
  }

  /** Lower-casing twice is lower-casing once. */
  lemma ToLowerIdempotent(s: string)
    ensures ToLower(ToLower(s)) == ToLower(s)
  {
  }

  /** `s.includes(sub)`: `sub` occurs in `s` at some position. */
  predicate Includes(s: string, sub: string) {
    exists i :: 0 <= i <= |s| - |sub| && OccursAt(s, sub, i)
  }

  /** `sub` occurs in `s` starting at index `i`. */
  predicate OccursAt(s: string, sub: string, i: int) {
    0 <= i <= |s| - |sub| && s[i..i + |sub|] == sub
  }

  predicate IsDigit(c: char) {
    '0' <= c <= '9'
  }

  function DigitValue(c: char): (d: nat)
    requires IsDigit(c)
    ensures d <= 9
  {
    c as int - '0' as int
  }

  predicate AllDigits(s: string) {
    forall i :: 0 <= i < |s| ==> IsDigit(s[i])
  }

  /** The decimal value of a string of digits, most significant first. */
  function DigitsValue(d: string): nat
    requires AllDigits(d)
  {
    if d == [] then 0 else DigitsValue(d[..|d| - 1]) * 10 + DigitValue(d[|d| - 1])
  }

  /** The length of the longest prefix of `s` made of digits. */
  function DigitRun(s: string): (n: nat)
    ensures n <= |s| && AllDigits(s[..n])
    ensures n < |s| ==> !IsDigit(s[n])
  {
    if s != [] && IsDigit(s[0]) then 1 + DigitRun(s[1..]) else 0
  }

  /**
   * `parseInt(s, 10)`: skip leading white space, read an optional sign, then the longest run of
   * digits; `None` stands for NaN (no digit at all).
   */
  function ParseInt(s: string): Option<int> {
    var t := TrimStart(s);
    var negative := |t| > 0 && t[0] == '-';
    var u := if |t| > 0 && (t[0] == '-' || t[0] == '+') then t[1..] else t;
    var n := DigitRun(u);
    if n == 0 then None
    else
      var v: int := DigitsValue(u[..n]);
      Some(if negative then -v else v)
  }

  /** `parseInt` reads a non-empty digit string as its decimal value, whatever follows a non-digit. */
  lemma ParseIntDigits(d: string, rest: string)
    requires d != [] && AllDigits(d)
    requires rest == [] || !IsDigit(rest[0])
    ensures ParseInt(d + rest) == Some(DigitsValue(d))
  {
    var s := d + rest;
    assert !IsJsSpace(s[0]) && s[0] != '-' && s[0] != '+';
    DigitRunOf(d, rest);
    assert s[..|d|] == d;
  }

  lemma {:induction false} DigitRunOf(d: string, rest: string)
    requires AllDigits(d)
    requires rest == [] || !IsDigit(rest[0])
    ensures DigitRun(d + rest) == |d|
  {
    if d != [] {
      assert (d + rest)[1..] == d[1..] + rest;
      DigitRunOf(d[1..], rest);
    } else {
      assert d + rest == rest;
    }
  }

  /** The decimal digits of a natural number, as `String(n)` writes them. */
  function NatToString(n: nat): (r: string)
    ensures r != [] && AllDigits(r)
    ensures |r| > 1 ==> r[0] != '0'
  {
    if n < 10 then [('0' as int + n) as char]
    else NatToString(n / 10) + [('0' as int + n % 10) as char]
  }

  /** `String(n)` is read back by `parseInt` as `n`. */
  lemma {:induction false} NatToStringValue(n: nat)
    ensures DigitsValue(NatToString(n)) == n
  {
    var r := NatToString(n);
    if n >= 10 {
      NatToStringValue(n / 10);
      assert r[..|r| - 1] == NatToString(n / 10);
    }
  }

  lemma ParseIntNatToString(n: nat)
    ensures ParseInt(NatToString(n)) == Some(n)
  {
    NatToStringValue(n);
    ParseIntDigits(NatToString(n), "");
    assert NatToString(n) + "" == NatToString(n);
  }
}
