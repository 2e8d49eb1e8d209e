/**
 * `urllib.parse.urlencode` on a list of string pairs, with its default
 * `quote_via=quote_plus`: each key and value is encoded as UTF-8, the bytes
 * of ASCII letters, digits and `_.-~` are kept, a space becomes `+`, and
 * every other byte becomes `%` and two upper-case hex digits.
 */
module QueryString {

  import opened Text

  /** The characters `quote_plus` never escapes. */
  predicate Unreserved(c: char) {
    ('A' <= c <= 'Z') || ('a' <= c <= 'z') || ('0' <= c <= '9') || c == '_' || c == '.' || c == '-' || c == '~'
  }

  /** The UTF-8 encoding of one Unicode scalar value. */
  function Utf8(c: char): (bytes: seq<nat>)
    ensures 1 <= |bytes| <= 4
    ensures forall i | 0 <= i < |bytes| :: bytes[i] < 256
    ensures (c as int) < 0x80 <==> |bytes| == 1
  {
    var n := c as int;
    if n < 0x80 then [n]
    else if n < 0x800 then [0xC0 + n / 0x40, 0x80 + n % 0x40]
    else if n < 0x1_0000 then [0xE0 + n / 0x1000, 0x80 + (n / 0x40) % 0x40, 0x80 + n % 0x40]
    else [0xF0 + n / 0x4_0000, 0x80 + (n / 0x1000) % 0x40, 0x80 + (n / 0x40) % 0x40, 0x80 + n % 0x40]
  }

  function HexDigit(n: nat): (c: char)
    requires n < 16
    ensures Unreserved(c)
  {
    "0123456789ABCDEF"[n]
  }

  /** `%XX` for each byte. */
  function PercentEncode(bytes: seq<nat>): (r: string)
    requires forall i | 0 <= i < |bytes| :: bytes[i] < 256
    ensures |r| == 3 * |bytes|
    ensures forall i | 0 <= i < |r| :: r[i] == '%' || Unreserved(r[i])
  {
    if bytes == [] then []
    else ['%', HexDigit(bytes[0] / 16), HexDigit(bytes[0] % 16)] + PercentEncode(bytes[1..])
  }

  /** `quote_plus` on one character. */
  function QuoteChar(c: char): (r: string)
    ensures r != []
    ensures forall i | 0 <= i < |r| :: r[i] == '%' || r[i] == '+' || Unreserved(r[i])
  {
    if c == ' ' then "+"
    else if Unreserved(c) then [c]
    else PercentEncode(Utf8(c))
  }

  /** `quote_plus(s)`. */
  function QuotePlus(s: string): (r: string)
    ensures forall i | 0 <= i < |r| :: r[i] == '%' || r[i] == '+' || Unreserved(r[i])
    ensures |r| >= |s|
  {
    if s == [] then [] else QuoteChar(s[0]) + QuotePlus(s[1..])
  }

  /** Text made only of unreserved characters passes through `quote_plus` unchanged. */
  lemma {:induction false} QuotePlusKeepsUnreserved(s: string)
    requires forall i | 0 <= i < |s| :: Unreserved(s[i])
    ensures QuotePlus(s) == s
  {
    if s != [] {
      QuotePlusKeepsUnreserved(s[1..]);
    }
  }

  /** `urlencode(pairs)`: `key=value` items joined by `&`. */
  function Urlencode(pairs: seq<(string, string)>): string {
    if pairs == [] then []
    else if |pairs| == 1 then QuotePlus(pairs[0].0) + "=" + QuotePlus(pairs[0].1)
    else QuotePlus(pairs[0].0) + "=" + QuotePlus(pairs[0].1) + "&" + Urlencode(pairs[1..])
  }

  /** A character that may appear in an encoded query. */
  predicate QueryChar(c: char) {
    Unreserved(c) || c == '%' || c == '+' || c == '=' || c == '&'
  }

  /**
   * An encoded query holds only unreserved characters and `%+=&`: whatever
   * the search terms are, it contains no `?`, `/`, `#`, `{` or `}` that could
   * be read as part of the path or as a formatting placeholder.
   */
  lemma {:induction false} UrlencodeIsSafe(pairs: seq<(string, string)>)
    ensures forall i | 0 <= i < |Urlencode(pairs)| :: QueryChar(Urlencode(pairs)[i])
    ensures pairs != [] ==> Urlencode(pairs) != []
    decreases |pairs|
  {
    if |pairs| > 1 {
      UrlencodeIsSafe(pairs[1..]);
    }
  }
}
