/**
 * `encodeURIComponent` and `decodeURIComponent` as the player and its router use them: an
 * artist's name is encoded into the `/artist/<name>` link, decoded by the router, and decoded a
 * second time by the artist page.
 * Characters are Unicode scalar values; each one outside the unreserved set is written as the
 * percent-escapes of its UTF-8 bytes (section 19.2.6 of ECMA-262, 2024 edition, the Encode and Decode operations).
 */
module Uri {
  import opened Optional

  /** The characters `encodeURIComponent` leaves as they are. */
  predicate Unreserved(c: char) {
    || 'A' <= c <= 'Z' || 'a' <= c <= 'z' || '0' <= c <= '9'
    || c == '-' || c == '_' || c == '.' || c == '!' || c == '~' || c == '*' || c == '\'' || c == '(' || c == ')'
  }

  /** The upper-case hexadecimal digit of a nibble. */
  function HexDigit(d: nat): (r: char)
    requires d < 16
    ensures '0' <= r <= '9' || 'A' <= r <= 'F'
  {
    if d < 10 then ('0' as int + d) as char else ('A' as int + d - 10) as char
  }

  /** The value of a hexadecimal digit of either case. */
  function HexValue(c: char): Option<nat> {
    if '0' <= c <= '9' then Some(c as int - '0' as int)
    else if 'A' <= c <= 'F' then Some(c as int - 'A' as int + 10)
    else if 'a' <= c <= 'f' then Some(c as int - 'a' as int + 10)
    else None
  }

  lemma HexRoundTrip(d: nat)
    requires d < 16
    ensures HexValue(HexDigit(d)) == Some(d)
  {
  }

  /** A byte as `%` and two upper-case hexadecimal digits. */
  function Escape(b: nat): string
    requires b < 256
  {
    ['%', HexDigit(b / 16), HexDigit(b % 16)]
  }

  /** The UTF-8 encoding of a scalar value: one byte below 0x80, then two, three or four. */
  function Utf8(c: char): (r: seq<nat>)
    ensures 1 <= |r| <= 4 && forall i :: 0 <= i < |r| ==> r[i] < 256
  {
    var n := c as int;
    if n < 0x80 then [n]
    else if n < 0x800 then [0xC0 + n / 64, 0x80 + n % 64]
    else if n < 0x1_0000 then [0xE0 + n / 4096, 0x80 + n / 64 % 64, 0x80 + n % 64]
    else [0xF0 + n / 262144, 0x80 + n / 4096 % 64, 0x80 + n / 64 % 64, 0x80 + n % 64]
  }

  function EscapeAll(bs: seq<nat>): (r: string)
    requires forall i :: 0 <= i < |bs| ==> bs[i] < 256
    ensures |r| == 3 * |bs|
    ensures '/' !in r && '?' !in r && '#' !in r
    ensures bs != [] ==> r[0] == '%'
  {
    if bs == [] then [] else Escape(bs[0]) + EscapeAll(bs[1..])
  }

  function EncodeChar(c: char): string {
    if Unreserved(c) then [c] else EscapeAll(Utf8(c))
  }

  /** `encodeURIComponent(s)`. */
  function EncodeURIComponent(s: string): (r: string)
    ensures '/' !in r && '?' !in r && '#' !in r
    ensures |r| >= |s|
  {
    if s == [] then [] else EncodeChar(s[0]) + EncodeURIComponent(s[1..])
  }

  // ---------------------------------------------------------------- decoding

  /** The byte written as `%XY` at index `i`, if that is what stands there. */
  function ReadEscape(s: string, i: nat): Option<nat> {
    if i + 3 <= |s| && s[i] == '%' && HexValue(s[i + 1]).Some? && HexValue(s[i + 2]).Some? then
      Some(16 * HexValue(s[i + 1]).value + HexValue(s[i + 2]).value)
    else None
  }

  /** How many bytes a sequence starting with `b` has; 0 when `b` cannot start one. */
  function LeadLength(b: nat): nat {
    if b < 0x80 then 1
    else if b < 0xC0 then 0
    else if b < 0xE0 then 2
    else if b < 0xF0 then 3
    else if b < 0xF8 then 4
    else 0
  }

  /** The payload bits of a leading byte of a sequence of `n` bytes. */
  function LeadBits(b: nat, n: nat): int {
    if n == 1 then b else if n == 2 then b - 0xC0 else if n == 3 then b - 0xE0 else b - 0xF0
  }

  /** The escapes at `i`, `i + 3`, ... (`k` of them), all continuation bytes, folded into `acc`. */
  function Continue(s: string, i: nat, k: nat, acc: int): Option<int>
    decreases k
  {
    if k == 0 then Some(acc)
    else
      match ReadEscape(s, i)
      case None => None
      case Some(b) =>
        if 0x80 <= b < 0xC0 then Continue(s, i + 3, k - 1, acc * 64 + (b as int - 0x80)) else None
  }

  /** The smallest scalar value a sequence of `n` bytes may carry (no overlong forms). */
  function MinFor(n: nat): int {
    if n == 1 then 0 else if n == 2 then 0x80 else if n == 3 then 0x800 else 0x1_0000
  }

  /**
   * The character spelled by the escapes at the start of `s` and how many characters they take, or
   * `None` when `decodeURIComponent` throws there.
   */
  function DecodeEscaped(s: string): Option<(char, nat)> {
    match ReadEscape(s, 0)
    case None => None
    case Some(b) =>
      var n := LeadLength(b);
      if n == 0 then None
      else
        match Continue(s, 3, n - 1, LeadBits(b, n))
        case None => None
        case Some(v) =>
          if MinFor(n) <= v && (v < 0xD800 || 0xE000 <= v < 0x11_0000) then Some((v as char, 3 * n)) else None
  }

  /** `decodeURIComponent(s)`; `None` stands for the `URIError` it throws on a malformed escape. */
  function DecodeURIComponent(s: string): Option<string>
    decreases |s|
  {
    if s == [] then Some([])
    else if s[0] != '%' then
      match DecodeURIComponent(s[1..])
      case None => None
      case Some(t) => Some([s[0]] + t)
    else
      match DecodeEscaped(s)
      case None => None
      case Some((c, len)) =>
        if 0 < len <= |s| then
          match DecodeURIComponent(s[len..])
          case None => None
          case Some(t) => Some([c] + t)
        else None
  }

  /** Text without `%` decodes to itself. */
  lemma {:induction false} DecodePlain(s: string)
    requires '%' !in s
    ensures DecodeURIComponent(s) == Some(s)
  {
    if s != [] {
      assert '%' !in s[1..] by {
        assert forall c :: c in s[1..] ==> c in s;
      }
      DecodePlain(s[1..]);
      assert s == [s[0]] + s[1..];
    }
  }

  // ---------------------------------------------------------------- round trip

  lemma ReadEscapeOf(b: nat, rest: string)
    requires b < 256
    ensures ReadEscape(Escape(b) + rest, 0) == Some(b)
  {
    HexRoundTrip(b / 16);
    HexRoundTrip(b % 16);
  }

  /** The escaped bytes are read back one by one, each folded into the accumulator. */
  lemma {:induction false} ContinueOf(bs: seq<nat>, rest: string, acc: int)
    requires forall i :: 0 <= i < |bs| ==> 0x80 <= bs[i] < 0xC0
    ensures Continue(EscapeAll(bs) + rest, 0, |bs|, acc) == Some(Fold(bs, acc))
  {
    if bs != [] {
      var s := EscapeAll(bs) + rest;
      assert s == Escape(bs[0]) + (EscapeAll(bs[1..]) + rest);
      ReadEscapeOf(bs[0], EscapeAll(bs[1..]) + rest);
      ContinueShift(Escape(bs[0]), EscapeAll(bs[1..]) + rest, |bs| - 1, acc * 64 + (bs[0] as int - 0x80));
      ContinueOf(bs[1..], rest, acc * 64 + (bs[0] as int - 0x80));
    }
  }

  /** Reading continuation bytes after a prefix of length 3 is reading them from the start of the rest. */
  lemma {:induction false} ContinueShift(p: string, t: string, k: nat, acc: int)
    requires |p| == 3
    ensures Continue(p + t, 3, k, acc) == Continue(t, 0, k, acc)
  {
    ContinueShiftAt(p, t, 0, k, acc);
  }

  lemma {:induction false} ContinueShiftAt(p: string, t: string, i: nat, k: nat, acc: int)
    requires |p| == 3
    ensures Continue(p + t, i + 3, k, acc) == Continue(t, i, k, acc)
    decreases k
  {
    if k > 0 {
      assert ReadEscape(p + t, i + 3) == ReadEscape(t, i) by {
        if i + 3 <= |t| {
          assert (p + t)[i + 3..i + 6] == t[i..i + 3];
        }
      }
      var b := ReadEscape(t, i);
      if b.Some? && 0x80 <= b.value < 0xC0 {
        ContinueShiftAt(p, t, i + 3, k - 1, acc * 64 + (b.value - 0x80));
      }
    }
  }

  /** The value of continuation bytes folded into `acc`, six bits each. */
  function Fold(bs: seq<nat>, acc: int): int {
    if bs == [] then acc else Fold(bs[1..], acc * 64 + (bs[0] as int - 0x80))
  }

  /** Dividing by 64 twice is dividing by 4096; three times, by 262144. */
  lemma DivSteps(n: nat)
    ensures n / 4096 == n / 64 / 64
    ensures n / 262144 == n / 4096 / 64
  {
    var q := n / 64 / 64;
    assert n / 64 == 64 * q + n / 64 % 64;
    assert n == 4096 * q + (64 * (n / 64 % 64) + n % 64);
    var p := n / 4096 / 64;
    assert n / 4096 == 64 * p + n / 4096 % 64;
    assert n == 262144 * p + (4096 * (n / 4096 % 64) + n % 4096);
  }

  lemma Fold1(x: nat, acc: int)
    ensures Fold([x], acc) == acc * 64 + x - 0x80
  {
    assert [x][1..] == [];
  }

  lemma Fold2(x: nat, y: nat, acc: int)
    ensures Fold([x, y], acc) == (acc * 64 + x - 0x80) * 64 + y - 0x80
  {
    assert [x, y][1..] == [y];
    Fold1(y, acc * 64 + x - 0x80);
  }

  lemma Fold3(x: nat, y: nat, z: nat, acc: int)
    ensures Fold([x, y, z], acc) == ((acc * 64 + x - 0x80) * 64 + y - 0x80) * 64 + z - 0x80
  {
    assert [x, y, z][1..] == [y, z];
    Fold2(y, z, acc * 64 + x - 0x80);
  }

  /** The UTF-8 bytes of a character fold back to the character. */
  lemma Utf8Value(c: char)
    ensures var bs := Utf8(c); var n := |bs|;
      && LeadLength(bs[0]) == n
      && (forall i :: 1 <= i < n ==> 0x80 <= bs[i] < 0xC0)
      && Fold(bs[1..], LeadBits(bs[0], n)) == c as int
      && MinFor(n) <= c as int
  {
    var n := c as int;
    var bs := Utf8(c);
    DivSteps(n);
    if n < 0x80 {
    } else if n < 0x800 {
      assert bs[1..] == [0x80 + n % 64];
      Fold1(0x80 + n % 64, n / 64);
    } else if n < 0x1_0000 {
      assert bs[1..] == [0x80 + n / 64 % 64, 0x80 + n % 64];
      Fold2(0x80 + n / 64 % 64, 0x80 + n % 64, n / 4096);
    } else {
      assert bs[1..] == [0x80 + n / 4096 % 64, 0x80 + n / 64 % 64, 0x80 + n % 64];
      Fold3(0x80 + n / 4096 % 64, 0x80 + n / 64 % 64, 0x80 + n % 64, n / 262144);
    }
  }

  /** The escapes of one character decode to that character and nothing more. */
  lemma DecodeEscapedOf(c: char, rest: string)
    requires !Unreserved(c)
    ensures DecodeEscaped(EncodeChar(c) + rest) == Some((c, |EncodeChar(c)|))
  {
    var bs := Utf8(c);
    var s := EncodeChar(c) + rest;
    assert s == Escape(bs[0]) + (EscapeAll(bs[1..]) + rest);
    ReadEscapeOf(bs[0], EscapeAll(bs[1..]) + rest);
    Utf8Value(c);
    ContinueShift(Escape(bs[0]), EscapeAll(bs[1..]) + rest, |bs| - 1, LeadBits(bs[0], |bs|));
    ContinueOf(bs[1..], rest, LeadBits(bs[0], |bs|));
  }

  /** Decoding an encoded string gives the string back: the artist page finds the name its link carries. */
  lemma {:induction false} DecodeEncode(s: string)
    ensures DecodeURIComponent(EncodeURIComponent(s)) == Some(s)
  {
    if s != [] {
      var e := EncodeURIComponent(s[1..]);
      DecodeEncode(s[1..]);
      var w := EncodeChar(s[0]) + e;
      assert EncodeURIComponent(s) == w;
      assert [s[0]] + s[1..] == s;
      if Unreserved(s[0]) {
        assert w[0] == s[0] != '%' && w[1..] == e;
        assert DecodeURIComponent(w) == Some([s[0]] + s[1..]);
      } else {
        var len := |EncodeChar(s[0])|;
        DecodeEscapedOf(s[0], e);
        assert w[0] == EncodeChar(s[0])[0] == '%';
        assert w[len..] == e;
        assert DecodeURIComponent(w) == Some([s[0]] + s[1..]);
      }
    }
  }
}
