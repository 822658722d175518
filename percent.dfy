/** `urllib.parse.quote(paper_id, safe=":")` as the client uses it to put a
    paper identifier into a URL path (percent-encoding, section 2.1 of
    RFC 3986), and the decoding that undoes it. The identifier is first
    encoded as UTF-8; every byte that is not an unreserved ASCII character
    or ':' becomes '%' and two upper-case hexadecimal digits. */
module PercentEncoding {
  import opened Dicts

  newtype byte = x: int | 0 <= x < 256

  /** Characters `quote` never escapes: ASCII letters, digits and `_.-~`. */
  predicate AlwaysSafe(c: char)
  {
    'A' <= c <= 'Z' || 'a' <= c <= 'z' || '0' <= c <= '9' || c == '_' || c == '.' || c == '-' || c == '~'
  }

  /** The characters left literal by `quote(_, safe=":")`. */
  predicate Safe(c: char) { AlwaysSafe(c) || c == ':' }

  // ---------------------------------------------------------------- UTF-8

  /** The UTF-8 encoding of one character (`str.encode("utf-8")`). */
  function Utf8Char(c: char): (bs: seq<byte>)
    ensures 1 <= |bs| <= 4
    ensures (|bs| == 1) == (c as int < 0x80)
    ensures |bs| == 1 ==> bs[0] as int == c as int
    ensures |bs| > 1 ==> forall i :: 0 <= i < |bs| ==> bs[i] >= 0x80
  {
    var cp := c as int;
    if cp < 0x80 then [cp as byte]
    else if cp < 0x800 then [(0xC0 + cp / 64) as byte, (0x80 + cp % 64) as byte]
    else if cp < 0x10000 then
      [(0xE0 + cp / 4096) as byte, (0x80 + (cp / 64) % 64) as byte, (0x80 + cp % 64) as byte]
    else
      [(0xF0 + cp / 262144) as byte, (0x80 + (cp / 4096) % 64) as byte,
       (0x80 + (cp / 64) % 64) as byte, (0x80 + cp % 64) as byte]
  }

  function Utf8(s: string): seq<byte>
  {
    if s == [] then [] else Utf8Char(s[0]) + Utf8(s[1..])
  }

  predicate IsContinuation(b: byte) { 0x80 <= b < 0xC0 }

  /** A code point, if it is a Unicode scalar value and at least `least`,
      the smallest code point that needs as many bytes (so overlong forms
      are refused, as Python's decoder refuses them). */
  function ScalarChar(cp: int, least: int): Option<char>
  {
    if least <= cp && (0 <= cp < 0xD800 || 0xE000 <= cp < 0x110000) then Some(cp as char) else None
  }

  /** Decodes the character at the front of `bs` and says how many bytes it took. */
  function DecodeFirst(bs: seq<byte>): Option<(char, nat)>
    requires |bs| > 0
  {
    var b0 := bs[0] as int;
    if b0 < 0x80 then Some((b0 as char, 1))
    else if 0xC0 <= b0 < 0xE0 && |bs| >= 2 && IsContinuation(bs[1]) then
      match ScalarChar((b0 - 0xC0) * 64 + (bs[1] as int - 0x80), 0x80)
      case None => None
      case Some(c) => Some((c, 2))
    else if 0xE0 <= b0 < 0xF0 && |bs| >= 3 && IsContinuation(bs[1]) && IsContinuation(bs[2]) then
      match ScalarChar((b0 - 0xE0) * 4096 + (bs[1] as int - 0x80) * 64 + (bs[2] as int - 0x80), 0x800)
      case None => None
      case Some(c) => Some((c, 3))
    else if 0xF0 <= b0 < 0xF8 && |bs| >= 4
      && IsContinuation(bs[1]) && IsContinuation(bs[2]) && IsContinuation(bs[3]) then
      match ScalarChar((b0 - 0xF0) * 262144 + (bs[1] as int - 0x80) * 4096
                       + (bs[2] as int - 0x80) * 64 + (bs[3] as int - 0x80), 0x10000)
      case None => None
      case Some(c) => Some((c, 4))
    else None
  }

  /** `bytes.decode("utf-8")`; None where the bytes are not UTF-8
      (a bad lead or continuation byte, a truncated sequence, an overlong
      form, a surrogate or a code point above U+10FFFF). */
  function Utf8Decode(bs: seq<byte>): Option<string>
    decreases |bs|
  {
    if bs == [] then Some([])
    else match DecodeFirst(bs)
      case None => None
      case Some((c, n)) =>
        if n == 0 || n > |bs| then None
        else match Utf8Decode(bs[n..])
          case None => None
          case Some(rest) => Some([c] + rest)
  }

  /** Splitting a code point into 6-bit groups and joining them again. */
  lemma Base64Digits(cp: int)
    requires 0 <= cp
    ensures cp == (cp / 64) * 64 + cp % 64
    ensures cp / 64 == (cp / 4096) * 64 + (cp / 64) % 64
    ensures cp / 4096 == (cp / 262144) * 64 + (cp / 4096) % 64
  {
  }

  lemma Utf8CharDecodes(c: char, rest: seq<byte>)
    ensures DecodeFirst(Utf8Char(c) + rest) == Some((c, |Utf8Char(c)|))
  {
    var cp := c as int;
    var bs := Utf8Char(c) + rest;
    Base64Digits(cp);
    if cp < 0x80 {
    } else if cp < 0x800 {
      assert bs[0] as int - 0xC0 == cp / 64 && bs[1] as int - 0x80 == cp % 64;
    } else if cp < 0x10000 {
      assert bs[0] as int - 0xE0 == cp / 4096;
      assert bs[1] as int - 0x80 == (cp / 64) % 64 && bs[2] as int - 0x80 == cp % 64;
      assert (cp / 4096) * 4096 + ((cp / 64) % 64) * 64 + cp % 64 == cp;
    } else {
      assert bs[0] as int - 0xF0 == cp / 262144;
      assert bs[1] as int - 0x80 == (cp / 4096) % 64;
      assert bs[2] as int - 0x80 == (cp / 64) % 64 && bs[3] as int - 0x80 == cp % 64;
      assert (cp / 262144) * 262144 + ((cp / 4096) % 64) * 4096 + ((cp / 64) % 64) * 64 + cp % 64 == cp;
    }
  }

  /** The overlong two-byte form of U+0000 is not UTF-8. */
  lemma OverlongRejected()
    ensures Utf8Decode([0xC0, 0x80]) == None
  {
  }

  /** Decoding UTF-8 recovers the encoded string. */
  lemma {:induction false} Utf8RoundTrip(s: string)
    ensures Utf8Decode(Utf8(s)) == Some(s)
  {
    if s != [] {
      var head := Utf8Char(s[0]);
      Utf8CharDecodes(s[0], Utf8(s[1..]));
      assert (head + Utf8(s[1..]))[|head|..] == Utf8(s[1..]);
      Utf8RoundTrip(s[1..]);
      assert s == [s[0]] + s[1..];
    }
  }

  // ------------------------------------------------------ percent-encoding

  predicate IsHexDigit(c: char) { '0' <= c <= '9' || 'A' <= c <= 'F' || 'a' <= c <= 'f' }

  function HexDigit(n: int): (c: char)
    requires 0 <= n < 16
    ensures IsHexDigit(c) && AlwaysSafe(c)
  {
    "0123456789ABCDEF"[n]
  }

  function HexValue(c: char): (n: int)
    requires IsHexDigit(c)
    ensures 0 <= n < 16
  {
    if '0' <= c <= '9' then c as int - '0' as int
    else if 'A' <= c <= 'F' then c as int - 'A' as int + 10
    else c as int - 'a' as int + 10
  }

  lemma HexValueOfDigit(n: int)
    requires 0 <= n < 16
    ensures HexValue(HexDigit(n)) == n
  {
  }

  /** One byte as `quote` writes it. */
  function QuoteByte(b: byte): (s: string)
    ensures s == [b as int as char] <==> b < 0x80 && Safe(b as int as char)
    ensures s != [b as int as char] ==> |s| == 3 && s[0] == '%'
  {
    if b < 0x80 && Safe(b as int as char) then [b as int as char]
    else ['%', HexDigit(b as int / 16), HexDigit(b as int % 16)]
  }

  function QuoteBytes(bs: seq<byte>): (s: string)
    ensures forall i :: 0 <= i < |s| ==> Safe(s[i]) || s[i] == '%'
  {
    if bs == [] then [] else QuoteByte(bs[0]) + QuoteBytes(bs[1..])
  }

  /** `quote(s, safe=":")`. The result never contains '/', so a quoted
      identifier is always a single path segment. */
  function Quote(s: string): (r: string)
    ensures forall i :: 0 <= i < |r| ==> Safe(r[i]) || r[i] == '%'
    ensures '/' !in r
  {
    QuoteBytes(Utf8(s))
  }

  /** Strict percent-decoding: a safe character stands for its own byte,
      '%' must be followed by two hexadecimal digits, anything else is
      rejected. */
  function Unquote(s: string): Option<seq<byte>>
  {
    if s == [] then Some([])
    else if s[0] == '%' then
      if |s| >= 3 && IsHexDigit(s[1]) && IsHexDigit(s[2]) then
        match Unquote(s[3..])
        case None => None
        case Some(rest) => Some([(HexValue(s[1]) * 16 + HexValue(s[2])) as byte] + rest)
      else None
    else if Safe(s[0]) then
      match Unquote(s[1..])
      case None => None
      case Some(rest) => Some([s[0] as int as byte] + rest)
    else None
  }

  /** Decoding a quoted identifier: percent-decoding, then UTF-8. */
  function DecodeId(s: string): Option<string>
  {
    match Unquote(s)
    case None => None
    case Some(bs) => Utf8Decode(bs)
  }

  lemma {:induction false} UnquoteQuoteBytes(bs: seq<byte>)
    ensures Unquote(QuoteBytes(bs)) == Some(bs)
  {
    if bs != [] {
      var b, tail := bs[0], QuoteBytes(bs[1..]);
      var s := QuoteByte(b) + tail;
      UnquoteQuoteBytes(bs[1..]);
      if b < 0x80 && Safe(b as int as char) {
        assert s[1..] == tail;
      } else {
        HexValueOfDigit(b as int / 16);
        HexValueOfDigit(b as int % 16);
        assert s[3..] == tail;
      }
      assert bs == [b] + bs[1..];
    }
  }

  /** Decoding the quoted identifier recovers the identifier. */
  lemma QuoteRoundTrip(s: string)
    ensures DecodeId(Quote(s)) == Some(s)
  {
    UnquoteQuoteBytes(Utf8(s));
    Utf8RoundTrip(s);
  }

  lemma {:induction false} Utf8Append(a: string, b: string)
    ensures Utf8(a + b) == Utf8(a) + Utf8(b)
  {
    if a != [] {
      assert (a + b)[1..] == a[1..] + b;
      Utf8Append(a[1..], b);
    } else {
      assert a + b == b;
    }
  }

  lemma {:induction false} QuoteBytesAppend(a: seq<byte>, b: seq<byte>)
    ensures QuoteBytes(a + b) == QuoteBytes(a) + QuoteBytes(b)
  {
    if a != [] {
      assert (a + b)[1..] == a[1..] + b;
      QuoteBytesAppend(a[1..], b);
    } else {
      assert a + b == b;
    }
  }

  /** Quoting works character by character. */
  lemma QuoteAppend(a: string, b: string)
    ensures Quote(a + b) == Quote(a) + Quote(b)
  {
    Utf8Append(a, b);
    QuoteBytesAppend(Utf8(a), Utf8(b));
  }

  /** A byte written as "%XY" with upper-case hexadecimal digits. */
  function Escape(b: byte): string
  {
    ['%', HexDigit(b as int / 16), HexDigit(b as int % 16)]
  }

  function EscapeAll(bs: seq<byte>): string
  {
    if bs == [] then [] else Escape(bs[0]) + EscapeAll(bs[1..])
  }

  lemma {:induction false} QuoteBytesEscapes(bs: seq<byte>)
    requires forall i :: 0 <= i < |bs| ==> bs[i] >= 0x80 || !Safe(bs[i] as int as char)
    ensures QuoteBytes(bs) == EscapeAll(bs)
  {
    if bs != [] {
      QuoteBytesEscapes(bs[1..]);
    }
  }

  /** A character that `quote` treats as safe stays literal; any other
      character becomes one "%XY" escape per byte of its UTF-8 encoding. */
  lemma QuoteChar(c: char)
    ensures Safe(c) ==> Quote([c]) == [c]
    ensures !Safe(c) ==> Quote([c]) == EscapeAll(Utf8Char(c))
  {
    var bs := Utf8Char(c);
    assert Utf8([c]) == bs + Utf8([]);
    assert bs + [] == bs;
    if Safe(c) {
      assert bs == [c as int as byte];
      assert QuoteBytes(bs) == QuoteByte(bs[0]) + QuoteBytes(bs[1..]);
    } else {
      QuoteBytesEscapes(bs);
    }
  }

  /** An identifier made only of safe characters (such as
      "ARXIV:2106.12345") is sent exactly as given. */
  lemma {:induction false} QuoteSafeIdentity(s: string)
    requires forall i :: 0 <= i < |s| ==> Safe(s[i])
    ensures Quote(s) == s
  {
    if s != [] {
      assert s == [s[0]] + s[1..];
      QuoteAppend([s[0]], s[1..]);
      QuoteChar(s[0]);
      QuoteSafeIdentity(s[1..]);
    }
  }

  /** '/' is not safe: it is sent as "%2F". */
  lemma QuoteSlash()
    ensures Quote("/") == "%2F"
  {
    QuoteChar('/');
    assert Utf8Char('/') == [47];
    assert EscapeAll([47]) == Escape(47) + EscapeAll([]);
  }
}
