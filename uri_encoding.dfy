/** JavaScript's encodeURIComponent, which the bill-request page applies to its
    message before placing it in the chat link's query string: every character
    outside the unreserved set is written as the percent-encoded bytes of its
    UTF-8 form, with upper-case hexadecimal digits. A reference decoder (in the
    manner of decodeURIComponent) is the partner that shows nothing is lost. */
module UriEncoding {
  import opened Text

  newtype byte = x: int | 0 <= x < 256

  /** The characters encodeURIComponent leaves unescaped. */
  predicate Unreserved(c: char) {
    ('A' <= c <= 'Z') || ('a' <= c <= 'z') || ('0' <= c <= '9') || c in "-_.!~*'()"
  }

  /** A character that can stand in a query value without ending it or
      starting a new parameter: unreserved, or the escape character itself. */
  predicate QuerySafe(c: char) {
    Unreserved(c) || c == '%'
  }

  predicate IsHex(c: char) {
    ('0' <= c <= '9') || ('A' <= c <= 'F') || ('a' <= c <= 'f')
  }

  function HexDigit(v: nat): (c: char)
    requires v < 16
    ensures IsHex(c) && Unreserved(c)
  {
    if v < 10 then (('0' as int) + v) as char else (('A' as int) + v - 10) as char
  }

  function HexValue(c: char): (v: nat)
    requires IsHex(c)
    ensures v < 16
  {
    if '0' <= c <= '9' then (c as int) - ('0' as int)
    else if 'A' <= c <= 'F' then (c as int) - ('A' as int) + 10
    else (c as int) - ('a' as int) + 10
  }

  lemma HexValueOfDigit(v: nat)
    requires v < 16
    ensures HexValue(HexDigit(v)) == v
  {
  }

  /** The code points a Dafny char can hold: the Unicode scalar values. */
  predicate IsScalar(n: int) {
    (0 <= n < 0xD800) || (0xE000 <= n < 0x11_0000)
  }

  /** The UTF-8 bytes of one character: the code point's bits in groups of
      six, behind a lead byte that says how many bytes follow. */
  function Utf8(c: char): (bs: seq<byte>)
    ensures 1 <= |bs| <= 4
  {
    var n := c as int;
    var n1 := n / 0x40;
    var n2 := n1 / 0x40;
    var n3 := n2 / 0x40;
    if n < 0x80 then [n as byte]
    else if n < 0x800 then [(0xC0 + n1) as byte, (0x80 + n % 0x40) as byte]
    else if n < 0x1_0000 then
      [(0xE0 + n2) as byte, (0x80 + n1 % 0x40) as byte, (0x80 + n % 0x40) as byte]
    else
      [(0xF0 + n3) as byte, (0x80 + n2 % 0x40) as byte,
       (0x80 + n1 % 0x40) as byte, (0x80 + n % 0x40) as byte]
  }

  /** The UTF-8 bytes of a string, character by character. */
  function Utf8String(s: string): seq<byte> {
    if s == [] then [] else Utf8(s[0]) + Utf8String(s[1..])
  }

  /** "%XX" for each byte. */
  function PercentBytes(bs: seq<byte>): (r: string)
    ensures |r| == 3 * |bs|
    ensures forall i :: 0 <= i < |r| ==> QuerySafe(r[i])
  {
    if bs == [] then []
    else
      var b := bs[0] as int;
      ['%', HexDigit(b / 16), HexDigit(b % 16)] + PercentBytes(bs[1..])
  }

  function EncodeChar(c: char): string {
    if Unreserved(c) then [c] else PercentBytes(Utf8(c))
  }

  /** encodeURIComponent(s). Its result consists of query-safe characters only,
      so the encoded text can never end the query value it is placed in. */
  function EncodeUriComponent(s: string): (r: string)
    ensures |r| >= |s|
    ensures forall i :: 0 <= i < |r| ==> QuerySafe(r[i])
  {
    if s == [] then [] else EncodeChar(s[0]) + EncodeUriComponent(s[1..])
  }

  // ----- the reference decoder -----

  /** Undo the percent layer: "%XX" gives the byte XX, an ASCII character
      gives its own code; anything else is malformed. */
  function PercentDecode(s: string): Option<seq<byte>> {
    if s == [] then Some([])
    else if s[0] == '%' then
      if |s| >= 3 && IsHex(s[1]) && IsHex(s[2]) then
        match PercentDecode(s[3..])
        case None => None
        case Some(rest) => Some([(16 * HexValue(s[1]) + HexValue(s[2])) as byte] + rest)
      else None
    else if (s[0] as int) < 0x80 then
      match PercentDecode(s[1..])
      case None => None
      case Some(rest) => Some([(s[0] as int) as byte] + rest)
    else None
  }

  /** How many bytes the UTF-8 sequence led by this byte has; 0 for a byte that
      cannot lead one. */
  function Utf8Length(lead: byte): nat {
    if lead < 0x80 then 1
    else if 0xC0 <= lead < 0xE0 then 2
    else if 0xE0 <= lead < 0xF0 then 3
    else if 0xF0 <= lead < 0xF8 then 4
    else 0
  }

  predicate IsContinuation(b: byte) {
    0x80 <= b < 0xC0
  }

  /** The character one complete UTF-8 sequence stands for. */
  function DecodeScalar(bs: seq<byte>): Option<char>
    requires 1 <= |bs| <= 4 && Utf8Length(bs[0]) == |bs|
  {
    if exists i :: 1 <= i < |bs| && !IsContinuation(bs[i]) then None
    else
      var n :=
        if |bs| == 1 then bs[0] as int
        else if |bs| == 2 then (bs[0] as int - 0xC0) * 0x40 + (bs[1] as int - 0x80)
        else if |bs| == 3 then
          (bs[0] as int - 0xE0) * 0x1000 + (bs[1] as int - 0x80) * 0x40 + (bs[2] as int - 0x80)
        else
          (bs[0] as int - 0xF0) * 0x4_0000 + (bs[1] as int - 0x80) * 0x1000
          + (bs[2] as int - 0x80) * 0x40 + (bs[3] as int - 0x80);
      if IsScalar(n) then Some(n as char) else None
  }

  function Utf8Decode(bs: seq<byte>): Option<string> {
    if bs == [] then Some([])
    else
      var k := Utf8Length(bs[0]);
      if k == 0 || |bs| < k then None
      else match DecodeScalar(bs[..k])
        case None => None
        case Some(c) =>
          match Utf8Decode(bs[k..])
          case None => None
          case Some(rest) => Some([c] + rest)
  }

  /** The reference inverse of EncodeUriComponent. */
  function DecodeUriComponent(s: string): Option<string> {
    match PercentDecode(s)
    case None => None
    case Some(bs) => Utf8Decode(bs)
  }

  // ----- the round trip -----

  /** The six-bit groups of n put back together give n. */
  lemma SixBitGroups(n: nat)
    ensures n == (n / 0x40) * 0x40 + n % 0x40
    ensures n == (n / 0x40 / 0x40) * 0x1000 + ((n / 0x40) % 0x40) * 0x40 + n % 0x40
    ensures n == (n / 0x40 / 0x40 / 0x40) * 0x4_0000 + ((n / 0x40 / 0x40) % 0x40) * 0x1000
                 + ((n / 0x40) % 0x40) * 0x40 + n % 0x40
  {
    var n1 := n / 0x40;
    var n2 := n1 / 0x40;
    assert n == n1 * 0x40 + n % 0x40;
    assert n1 == n2 * 0x40 + n1 % 0x40;
    assert n2 == (n2 / 0x40) * 0x40 + n2 % 0x40;
  }

  /** One character's UTF-8 bytes form exactly one well-formed sequence that
      decodes back to the character. */
  lemma Utf8OfChar(c: char)
    ensures Utf8Length(Utf8(c)[0]) == |Utf8(c)|
    ensures DecodeScalar(Utf8(c)) == Some(c)
  {
    var n := c as int;
    var bs := Utf8(c);
    SixBitGroups(n);
    if n < 0x80 {
    } else if n < 0x800 {
      assert (bs[0] as int - 0xC0) * 0x40 + (bs[1] as int - 0x80) == n;
    } else if n < 0x1_0000 {
      assert (bs[0] as int - 0xE0) * 0x1000 + (bs[1] as int - 0x80) * 0x40 + (bs[2] as int - 0x80) == n;
    } else {
      assert (bs[0] as int - 0xF0) * 0x4_0000 + (bs[1] as int - 0x80) * 0x1000
             + (bs[2] as int - 0x80) * 0x40 + (bs[3] as int - 0x80) == n;
    }
  }

  lemma {:induction false} Utf8RoundTrip(s: string)
    ensures Utf8Decode(Utf8String(s)) == Some(s)
  {
    if s != [] {
      var bs := Utf8String(s);
      var first := Utf8(s[0]);
      Utf8OfChar(s[0]);
      assert bs[..|first|] == first;
      assert bs[|first|..] == Utf8String(s[1..]);
      Utf8RoundTrip(s[1..]);
      assert s == [s[0]] + s[1..];
    }
  }

  /** One "%XX" group in front of decodable text decodes to the byte XX in
      front of that text's bytes. */
  lemma PercentByteStep(b: byte, t: string, rest: seq<byte>)
    requires PercentDecode(t) == Some(rest)
    ensures PercentDecode(['%', HexDigit(b as int / 16), HexDigit(b as int % 16)] + t) == Some([b] + rest)
  {
    var u := ['%', HexDigit(b as int / 16), HexDigit(b as int % 16)] + t;
    HexValueOfDigit(b as int / 16);
    HexValueOfDigit(b as int % 16);
    assert u[3..] == t;
    assert u[0] == '%' && IsHex(u[1]) && IsHex(u[2]);
    assert (16 * HexValue(u[1]) + HexValue(u[2])) as byte == b;
  }

  lemma {:induction false} PercentBytesRoundTrip(bs: seq<byte>, t: string, rest: seq<byte>)
    requires PercentDecode(t) == Some(rest)
    ensures PercentDecode(PercentBytes(bs) + t) == Some(bs + rest)
  {
    if bs == [] {
      assert PercentBytes(bs) + t == t && bs + rest == rest;
    } else {
      var b := bs[0];
      var t' := PercentBytes(bs[1..]) + t;
      var u := ['%', HexDigit(b as int / 16), HexDigit(b as int % 16)] + t';
      assert PercentDecode(u) == Some([b] + (bs[1..] + rest)) by {
        PercentBytesRoundTrip(bs[1..], t, rest);
        PercentByteStep(b, t', bs[1..] + rest);
      }
      assert PercentBytes(bs) + t == u;
      assert bs + rest == [b] + (bs[1..] + rest);
    }
  }

  lemma EncodeCharRoundTrip(c: char, t: string, rest: seq<byte>)
    requires PercentDecode(t) == Some(rest)
    ensures PercentDecode(EncodeChar(c) + t) == Some(Utf8(c) + rest)
  {
    if Unreserved(c) {
      assert ([c] + t)[1..] == t;
    } else {
      PercentBytesRoundTrip(Utf8(c), t, rest);
    }
  }

  lemma {:induction false} PercentRoundTrip(s: string)
    ensures PercentDecode(EncodeUriComponent(s)) == Some(Utf8String(s))
  {
    if s != [] {
      PercentRoundTrip(s[1..]);
      EncodeCharRoundTrip(s[0], EncodeUriComponent(s[1..]), Utf8String(s[1..]));
    }
  }

  /** Decoding the encoded text gives back exactly the original text. */
  lemma EncodeUriComponentRoundTrip(s: string)
    ensures DecodeUriComponent(EncodeUriComponent(s)) == Some(s)
  {
    PercentRoundTrip(s);
    Utf8RoundTrip(s);
  }

  /** An encoded value placed after a fixed prefix: the prefix is intact, all
      that follows it is query-safe, and that tail decodes to the value. */
  lemma EncodedAfterPrefix(p: string, s: string)
    ensures var r := p + EncodeUriComponent(s);
            && r[..|p|] == p
            && (forall i :: |p| <= i < |r| ==> QuerySafe(r[i]))
            && DecodeUriComponent(r[|p|..]) == Some(s)
  {
    var e := EncodeUriComponent(s);
    var r := p + e;
    EncodeUriComponentRoundTrip(s);
    assert r[|p|..] == e;
    assert forall i :: |p| <= i < |r| ==> r[i] == e[i - |p|];
  }
}
