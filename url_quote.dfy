/**
 Percent-encoding as urllib.parse.quote(s, safe="") and
 urllib.parse.unquote(s) perform it on ASCII text: every character other
 than a letter, a digit or one of "_.-~" becomes '%' and two upper-case
 hex digits, and every "%XX" naming an ASCII character decodes back.
 */
module UrlQuote {
  import Text

  const HexDigits: string := "0123456789ABCDEF"

  /** The characters quote never encodes. */
  predicate Unreserved(c: char) {
    Text.IsAlnum(c) || c == '_' || c == '.' || c == '-' || c == '~'
  }

  function HexValue(c: char): (v: int)
    ensures -1 <= v < 16
  {
    if '0' <= c <= '9' then c as int - '0' as int
    else if 'A' <= c <= 'F' then c as int - 'A' as int + 10
    else if 'a' <= c <= 'f' then c as int - 'a' as int + 10
    else -1
  }

  function QuoteChar(c: char): (r: string)
    ensures |r| == 1 || |r| == 3
  {
    if Unreserved(c) || c as int >= 128 then [c]
    else ['%', HexDigits[c as int / 16], HexDigits[c as int % 16]]
  }

  function Quote(s: string): (r: string)
    ensures |s| <= |r| <= 3 * |s|
  {
    if s == [] then [] else QuoteChar(s[0]) + Quote(s[1..])
  }

  /** Does s start with an escape "%XX" that names an ASCII character? */
  predicate StartsWithEscape(s: string) {
    |s| >= 3 && s[0] == '%' && HexValue(s[1]) >= 0 && HexValue(s[2]) >= 0
    && HexValue(s[1]) * 16 + HexValue(s[2]) < 128
  }

  function Unquote(s: string): (r: string)
    ensures |r| <= |s|
  {
    if s == [] then []
    else if StartsWithEscape(s) then
      [(HexValue(s[1]) * 16 + HexValue(s[2])) as char] + Unquote(s[3..])
    else [s[0]] + Unquote(s[1..])
  }

  lemma HexRoundTrip(d: int)
    requires 0 <= d < 16
    ensures HexValue(HexDigits[d]) == d
  {
  }

  /** Decoding undoes encoding. */
  lemma {:induction false} UnquoteQuote(s: string)
    ensures Unquote(Quote(s)) == s
  {
    if s != [] {
      var c := s[0];
      UnquoteQuote(s[1..]);
      var q := QuoteChar(c) + Quote(s[1..]);
      if Unreserved(c) || c as int >= 128 {
        assert !StartsWithEscape(q);
        assert q[1..] == Quote(s[1..]);
      } else {
        var n := c as int;
        HexRoundTrip(n / 16);
        HexRoundTrip(n % 16);
        assert StartsWithEscape(q);
        assert q[3..] == Quote(s[1..]);
        assert (n / 16 * 16 + n % 16) as char == c;
      }
      assert s == [c] + s[1..];
    }
  }

  lemma QuoteHash(s: string)
    ensures Quote("#" + s) == "%23" + Quote(s)
  {
    assert ("#" + s)[1..] == s;
  }

  lemma UnquoteHash(s: string)
    ensures Unquote("#" + s) == "#" + Unquote(s)
  {
    assert ("#" + s)[1..] == s;
  }

  lemma UnquoteEscapedHash(s: string)
    ensures Unquote("%23" + s) == "#" + Unquote(s)
  {
    assert ("%23" + s)[3..] == s;
  }
}
