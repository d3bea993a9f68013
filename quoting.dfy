/**
 * Python's `urllib.parse.quote_plus(s)` with its defaults (`safe=''`, UTF-8):
 * the string is encoded to UTF-8; the bytes of ASCII letters, digits and
 * `_.-~` stay as they are, the space byte becomes `+`, and every other byte
 * becomes `%` and two upper-case hex digits.
 *
 * Note that the space becomes `+`, where section 3.6 of RFC 5849 asks for
 * `%20`; the model keeps the code's behaviour (see `QuotePlusSpace`).
 */
module Quoting {
  import opened Wrappers
  import Strings

  type Byte = b: int | 0 <= b < 256

  /** The UTF-8 encoding of one Unicode scalar value (1 to 4 bytes). */
  function Utf8(c: char): (bs: seq<Byte>)
    ensures 1 <= |bs| <= 4
    ensures (c as int < 0x80) <==> |bs| == 1
    ensures |bs| == 1 ==> bs[0] == c as int
    ensures |bs| > 1 ==> forall i :: 0 <= i < |bs| ==> bs[i] >= 0x80
  {
    var cp := c as int;
    if cp < 0x80 then [cp]
    else if cp < 0x800 then [0xC0 + cp / 64, 0x80 + cp % 64]
    else if cp < 0x10000 then [0xE0 + cp / 4096, 0x80 + (cp / 64) % 64, 0x80 + cp % 64]
    else [0xF0 + cp / 262144, 0x80 + (cp / 4096) % 64, 0x80 + (cp / 64) % 64, 0x80 + cp % 64]
  }

  /** `s.encode('utf-8')` */
  function Utf8String(s: string): (bs: seq<Byte>)
    ensures |bs| >= |s|
  {
    if s == [] then [] else Utf8(s[0]) + Utf8String(s[1..])
  }

  /** The bytes `quote_plus` never escapes: ASCII letters, digits and `_.-~`. */
  predicate Unreserved(b: Byte)
  {
    || (0x41 <= b <= 0x5A) || (0x61 <= b <= 0x7A) || (0x30 <= b <= 0x39)
    || b == 0x5F || b == 0x2E || b == 0x2D || b == 0x7E
  }

  function HexDigit(n: int): (c: char)
    requires 0 <= n < 16
  {
    if n < 10 then ('0' as int + n) as char else ('A' as int + n - 10) as char
  }

  /** The value of an upper-case hex digit (what `%XX` decoding reads). */
  function HexValue(c: char): Option<int>
  {
    if '0' <= c <= '9' then Some(c as int - '0' as int)
    else if 'A' <= c <= 'F' then Some(c as int - 'A' as int + 10)
    else None
  }

  /** The text `quote_plus` produces for one byte. */
  function QuoteByte(b: Byte): (t: string)
    ensures 1 <= |t| <= 3
  {
    if Unreserved(b) then [b as char]
    else if b == 0x20 then "+"
    else ['%', HexDigit(b / 16), HexDigit(b % 16)]
  }

  function QuotePlusBytes(bs: seq<Byte>): string
  {
    if bs == [] then [] else QuoteByte(bs[0]) + QuotePlusBytes(bs[1..])
  }

  /** `urllib.parse.quote_plus(s)` */
  function QuotePlus(s: string): string
  {
    QuotePlusBytes(Utf8String(s))
  }

  /** The characters that can appear in the output of `quote_plus`. */
  predicate QuotedChar(c: char)
  {
    || ('A' <= c <= 'Z') || ('a' <= c <= 'z') || ('0' <= c <= '9')
    || c == '_' || c == '.' || c == '-' || c == '~' || c == '+' || c == '%'
  }

  /**
   * `quote_plus` output is made of unreserved characters, `+` and `%`-escapes
   * only: in particular it never holds `&`, `=`, `"`, `,` or a space, the
   * characters the OAuth strings use as delimiters.
   */
  lemma {:induction false} QuotePlusBytesAlphabet(bs: seq<Byte>)
    ensures forall i :: 0 <= i < |QuotePlusBytes(bs)| ==> QuotedChar(QuotePlusBytes(bs)[i])
  {
    if bs != [] {
      QuotePlusBytesAlphabet(bs[1..]);
      var head := QuoteByte(bs[0]);
      var tail := QuotePlusBytes(bs[1..]);
      assert QuotePlusBytes(bs) == head + tail;
      assert forall i :: 0 <= i < |head| ==> QuotedChar(head[i]);
    }
  }

  lemma QuotePlusAlphabet(s: string)
    ensures forall i :: 0 <= i < |QuotePlus(s)| ==> QuotedChar(QuotePlus(s)[i])
    ensures '&' !in QuotePlus(s) && '=' !in QuotePlus(s) && '"' !in QuotePlus(s)
    ensures ',' !in QuotePlus(s) && ' ' !in QuotePlus(s)
  {
    QuotePlusBytesAlphabet(Utf8String(s));
  }

  /** A space is written `+` (not `%20` as section 3.6 of RFC 5849 requires). */
  lemma QuotePlusSpace()
    ensures QuotePlus(" ") == "+"
  {
    assert Utf8String(" ") == [0x20];
  }

  /** Strings made of unreserved ASCII characters are left unchanged. */
  lemma {:induction false} QuotePlusUnreserved(s: string)
    requires forall i :: 0 <= i < |s| ==> s[i] as int < 0x80 && Unreserved(s[i] as int)
    ensures QuotePlus(s) == s
  {
    if s != [] {
      QuotePlusUnreserved(s[1..]);
      assert Utf8String(s) == [s[0] as int] + Utf8String(s[1..]);
      assert (s[0] as int) as char == s[0];
    }
  }

  /** `unquote_plus` down to bytes: `+` is a space, `%XX` a byte, anything else itself. */
  function UnquotePlusBytes(t: string): Option<seq<Byte>>
    decreases |t|
  {
    if t == [] then Some([])
    else if t[0] == '+' then
      match UnquotePlusBytes(t[1..])
      case Some(rest) => Some([0x20] + rest)
      case None => None
    else if t[0] == '%' then
      if |t| < 3 || HexValue(t[1]).None? || HexValue(t[2]).None? then None
      else
        match UnquotePlusBytes(t[3..])
        case Some(rest) => Some([HexValue(t[1]).value * 16 + HexValue(t[2]).value] + rest)
        case None => None
    else if t[0] as int < 0x80 then
      match UnquotePlusBytes(t[1..])
      case Some(rest) => Some([t[0] as int] + rest)
      case None => None
    else None
  }

  lemma HexRoundTrip(b: Byte)
    ensures HexValue(HexDigit(b / 16)) == Some(b / 16)
    ensures HexValue(HexDigit(b % 16)) == Some(b % 16)
    ensures (b / 16) * 16 + b % 16 == b
  {
  }

  lemma {:induction false} UnquoteQuoteByte(b: Byte, tail: string)
    ensures UnquotePlusBytes(QuoteByte(b) + tail) ==
      match UnquotePlusBytes(tail)
      case Some(rest) => Some([b] + rest)
      case None => None
  {
    var t := QuoteByte(b) + tail;
    if Unreserved(b) {
      assert t[0] == b as char && t[1..] == tail;
    } else if b == 0x20 {
      assert t[0] == '+' && t[1..] == tail;
    } else {
      HexRoundTrip(b);
      assert t[0] == '%' && t[1] == HexDigit(b / 16) && t[2] == HexDigit(b % 16) && t[3..] == tail;
    }
  }

  /** Decoding what `quote_plus` wrote gives back the bytes: the encoding loses nothing. */
  lemma {:induction false} UnquoteQuotePlusBytes(bs: seq<Byte>)
    ensures UnquotePlusBytes(QuotePlusBytes(bs)) == Some(bs)
  {
    if bs != [] {
      UnquoteQuotePlusBytes(bs[1..]);
      UnquoteQuoteByte(bs[0], QuotePlusBytes(bs[1..]));
      assert [bs[0]] + bs[1..] == bs;
    }
  }

  /** So two strings whose UTF-8 bytes differ are quoted differently. */
  lemma QuotePlusBytesInjective(a: seq<Byte>, b: seq<Byte>)
    requires QuotePlusBytes(a) == QuotePlusBytes(b)
    ensures a == b
  {
    UnquoteQuotePlusBytes(a);
    UnquoteQuotePlusBytes(b);
  }

  /** One `key=value` entry, both sides encoded with `quote_plus`. */
  function EncodedPair(item: (string, string)): string
  {
    QuotePlus(item.0) + "=" + QuotePlus(item.1)
  }

  function EncodedPairs(items: seq<(string, string)>): (r: seq<string>)
    ensures |r| == |items|
  {
    seq(|items|, i requires 0 <= i < |items| => EncodedPair(items[i]))
  }

  /** `urllib.parse.urlencode(items)` for string keys and values: the encoded entries in order, joined by `&`. */
  function Urlencode(items: seq<(string, string)>): string
  {
    Strings.Join(EncodedPairs(items), "&")
  }

  lemma NoAmpersand(s: string)
    ensures '&' !in QuotePlus(s) && '=' !in QuotePlus(s)
  {
    QuotePlusAlphabet(s);
  }

  /** Each entry splits at `=` into the encoded key and the encoded value. */
  lemma EncodedPairParts(item: (string, string))
    ensures '&' !in EncodedPair(item)
    ensures Strings.Split(EncodedPair(item), '=') == [QuotePlus(item.0), QuotePlus(item.1)]
  {
    NoAmpersand(item.0);
    NoAmpersand(item.1);
    assert Strings.Join([QuotePlus(item.0), QuotePlus(item.1)], "=") == EncodedPair(item);
    Strings.SplitJoin([QuotePlus(item.0), QuotePlus(item.1)], '=');
  }

  /**
   * An encoded query splits at `&` into exactly its entries, in order:
   * encoding leaves no `&` or `=` inside a key or a value that could be
   * mistaken for a separator.
   */
  lemma UrlencodeParts(items: seq<(string, string)>)
    requires items != []
    ensures Strings.Split(Urlencode(items), '&') == EncodedPairs(items)
  {
    var pairs := EncodedPairs(items);
    forall i | 0 <= i < |pairs| ensures '&' !in pairs[i] {
      EncodedPairParts(items[i]);
    }
    Strings.SplitJoin(pairs, '&');
  }

  lemma EncodedPairsMember(items: seq<(string, string)>, item: (string, string))
    requires item in items
    ensures EncodedPair(item) in EncodedPairs(items)
  {
    var i :| 0 <= i < |items| && items[i] == item;
    assert EncodedPairs(items)[i] == EncodedPair(item);
  }
}
