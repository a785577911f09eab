/**
 * The application/x-www-form-urlencoded serializer that URLSearchParams#toString
 * applies to the client's query parameters (WHATWG URL Standard, section 5.2),
 * and the matching parser a server applies to read them back. Characters are
 * Unicode scalar values, encoded to UTF-8 before percent-encoding.
 */
module FormUrlEncoding {
  import opened Wrappers

  type Byte = x: int | 0 <= x < 256

  predicate IsScalar(n: int) {
    0 <= n < 0xD800 || 0xE000 <= n < 0x11_0000
  }

  /** The UTF-8 encoding of one character. */
  function Utf8Char(c: char): (bs: seq<Byte>)
    ensures 1 <= |bs| <= 4
  {
    var n := c as int;
    if n < 0x80 then [n]
    else if n < 0x800 then [0xC0 + n / 64, 0x80 + n % 64]
    else if n < 0x1_0000 then [0xE0 + n / 4096, 0x80 + (n / 64) % 64, 0x80 + n % 64]
    else [0xF0 + n / 262144, 0x80 + (n / 4096) % 64, 0x80 + (n / 64) % 64, 0x80 + n % 64]
  }

  function Utf8(s: string): seq<Byte> {
    if s == [] then [] else Utf8Char(s[0]) + Utf8(s[1..])
  }

  predicate IsContinuation(b: Byte) {
    0x80 <= b < 0xC0
  }

  /** Decodes the character at the front of `bs` and says how many bytes it took. */
  function DecodeOne(bs: seq<Byte>): (r: Option<(char, nat)>)
    requires bs != []
    ensures r.Some? ==> 1 <= r.value.1 <= |bs|
  {
    var b0: int := bs[0];
    if b0 < 0x80 then Some((b0 as char, 1))
    else if 0xC0 <= b0 < 0xE0 && |bs| >= 2 && IsContinuation(bs[1]) then
      var n := (b0 - 0xC0) * 64 + (bs[1] as int - 0x80);
      if IsScalar(n) then Some((n as char, 2)) else None
    else if 0xE0 <= b0 < 0xF0 && |bs| >= 3 && IsContinuation(bs[1]) && IsContinuation(bs[2]) then
      var n := (b0 - 0xE0) * 4096 + (bs[1] as int - 0x80) * 64 + (bs[2] as int - 0x80);
      if IsScalar(n) then Some((n as char, 3)) else None
    else if 0xF0 <= b0 < 0xF8 && |bs| >= 4 && IsContinuation(bs[1]) && IsContinuation(bs[2]) && IsContinuation(bs[3]) then
      var n := (b0 - 0xF0) * 262144 + (bs[1] as int - 0x80) * 4096 + (bs[2] as int - 0x80) * 64 + (bs[3] as int - 0x80);
      if IsScalar(n) then Some((n as char, 4)) else None
    else None
  }

  /** UTF-8 decoding; None on a malformed sequence (a browser substitutes U+FFFD instead). */
  function DecodeUtf8(bs: seq<Byte>): Option<string>
    decreases |bs|
  {
    if bs == [] then Some([])
    else match DecodeOne(bs)
      case None => None
      case Some((c, k)) =>
        match DecodeUtf8(bs[k..])
        case None => None
        case Some(rest) => Some([c] + rest)
  }

  lemma ThreeByteArithmetic(n: int)
    requires 0x800 <= n < 0x1_0000
    ensures (n / 4096) * 4096 + ((n / 64) % 64) * 64 + n % 64 == n
  {
    var q, r := n / 4096, n % 4096;
    assert n == q * 4096 + r;
    assert n / 64 == q * 64 + r / 64;
    assert (n / 64) % 64 == r / 64;
    assert n % 64 == r % 64;
  }

  lemma FourByteArithmetic(n: int)
    requires 0x1_0000 <= n < 0x11_0000
    ensures (n / 262144) * 262144 + ((n / 4096) % 64) * 4096 + ((n / 64) % 64) * 64 + n % 64 == n
  {
    var q, r := n / 262144, n % 262144;
    assert n == q * 262144 + r;
    assert n / 4096 == q * 64 + r / 4096;
    assert (n / 4096) % 64 == r / 4096;
    var r2 := r % 4096;
    assert r == (r / 4096) * 4096 + r2;
    assert n / 64 == q * 4096 + (r / 4096) * 64 + r2 / 64;
    assert (n / 64) % 64 == r2 / 64;
    assert n % 64 == r2 % 64;
  }

  lemma DecodeOneOfUtf8Char(c: char, rest: seq<Byte>)
    ensures DecodeOne(Utf8Char(c) + rest) == Some((c, |Utf8Char(c)|))
  {
    var n := c as int;
    var bs := Utf8Char(c) + rest;
    if n < 0x80 {
    } else if n < 0x800 {
      assert bs[0] == 0xC0 + n / 64 && bs[1] == 0x80 + n % 64;
    } else if n < 0x1_0000 {
      assert bs[0] == 0xE0 + n / 4096 && bs[1] == 0x80 + (n / 64) % 64 && bs[2] == 0x80 + n % 64;
      ThreeByteArithmetic(n);
    } else {
      assert bs[0] == 0xF0 + n / 262144 && bs[1] == 0x80 + (n / 4096) % 64;
      assert bs[2] == 0x80 + (n / 64) % 64 && bs[3] == 0x80 + n % 64;
      FourByteArithmetic(n);
    }
  }

  /** Decoding the UTF-8 encoding of a string gives the string back. */
  lemma {:induction false} DecodeUtf8OfUtf8(s: string)
    ensures DecodeUtf8(Utf8(s)) == Some(s)
  {
    if s != [] {
      var head := Utf8Char(s[0]);
      var bs := Utf8(s);
      assert bs == head + Utf8(s[1..]);
      DecodeOneOfUtf8Char(s[0], Utf8(s[1..]));
      assert bs[|head|..] == Utf8(s[1..]);
      DecodeUtf8OfUtf8(s[1..]);
      assert DecodeUtf8(bs) == Some([s[0]] + s[1..]);
      assert [s[0]] + s[1..] == s;
    }
  }

  /** Bytes the serializer leaves as they are: * - . 0-9 A-Z _ a-z. */
  predicate IsUnreserved(b: Byte) {
    b == 0x2A || b == 0x2D || b == 0x2E || 0x30 <= b <= 0x39 || 0x41 <= b <= 0x5A || b == 0x5F || 0x61 <= b <= 0x7A
  }

  function HexDigit(d: nat): (c: char)
    requires d < 16
  {
    if d < 10 then ('0' as int + d) as char else ('A' as int + d - 10) as char
  }

  predicate IsHexDigit(c: char) {
    '0' <= c <= '9' || 'A' <= c <= 'F' || 'a' <= c <= 'f'
  }

  function HexValue(c: char): (d: nat)
    requires IsHexDigit(c)
    ensures d < 16
  {
    if '0' <= c <= '9' then c as int - '0' as int
    else if 'A' <= c <= 'F' then c as int - 'A' as int + 10
    else c as int - 'a' as int + 10
  }

  /** How the serializer writes one byte: a space as '+', unreserved bytes as themselves, the rest as %XX. */
  function EncodeByte(b: Byte): string {
    if b == 0x20 then "+"
    else if IsUnreserved(b) then [b as char]
    else ['%', HexDigit(b / 16), HexDigit(b % 16)]
  }

  function EncodeBytes(bs: seq<Byte>): string {
    if bs == [] then "" else EncodeByte(bs[0]) + EncodeBytes(bs[1..])
  }

  /** The urlencoded form of one name or value. */
  function Encode(s: string): string {
    EncodeBytes(Utf8(s))
  }

  /** Only '+', '%', hex digits and unreserved characters ever appear in an encoded component. */
  predicate IsEncodedChar(c: char) {
    c == '+' || c == '%' || IsHexDigit(c) || (c as int < 256 && IsUnreserved(c as int))
  }

  lemma {:induction false} EncodeBytesChars(bs: seq<Byte>)
    ensures forall i :: 0 <= i < |EncodeBytes(bs)| ==> IsEncodedChar(EncodeBytes(bs)[i])
  {
    if bs != [] {
      EncodeBytesChars(bs[1..]);
      var e := EncodeByte(bs[0]);
      assert forall i :: 0 <= i < |e| ==> IsEncodedChar(e[i]);
      assert EncodeBytes(bs) == e + EncodeBytes(bs[1..]);
    }
  }

  /**
   * The parser's byte sequence for an encoded component: '+' is a space, '%'
   * followed by two hex digits is that byte, a '%' without them stands for
   * itself, and every other character contributes its UTF-8 bytes.
   */
  function PercentDecode(s: string): seq<Byte>
    decreases |s|
  {
    if s == [] then []
    else if s[0] == '+' then [0x20] + PercentDecode(s[1..])
    else if s[0] == '%' && |s| >= 3 && IsHexDigit(s[1]) && IsHexDigit(s[2]) then
      [HexValue(s[1]) * 16 + HexValue(s[2])] + PercentDecode(s[3..])
    else Utf8Char(s[0]) + PercentDecode(s[1..])
  }

  lemma EncodeByteDecodes(b: Byte, rest: string)
    ensures PercentDecode(EncodeByte(b) + rest) == [b] + PercentDecode(rest)
  {
    var s := EncodeByte(b) + rest;
    if b == 0x20 {
      assert s[1..] == rest;
    } else if IsUnreserved(b) {
      assert s[0] == b as char && s[1..] == rest;
    } else {
      assert s[0] == '%' && s[1] == HexDigit(b / 16) && s[2] == HexDigit(b % 16);
      assert s[3..] == rest;
    }
  }

  lemma {:induction false} PercentDecodeOfEncodeBytes(bs: seq<Byte>)
    ensures PercentDecode(EncodeBytes(bs)) == bs
  {
    if bs != [] {
      EncodeByteDecodes(bs[0], EncodeBytes(bs[1..]));
      PercentDecodeOfEncodeBytes(bs[1..]);
    }
  }

  /** The parser's reading of one encoded name or value. */
  function DecodeComponent(s: string): Option<string> {
    DecodeUtf8(PercentDecode(s))
  }

  /** Every string survives encoding and decoding unchanged. */
  lemma EncodeRoundTrip(s: string)
    ensures DecodeComponent(Encode(s)) == Some(s)
  {
    PercentDecodeOfEncodeBytes(Utf8(s));
    DecodeUtf8OfUtf8(s);
  }

  /** A name-value pair of a query, in insertion order. */
  type Param = (string, string)

  function EncodePair(p: Param): string {
    Encode(p.0) + "=" + Encode(p.1)
  }

  /** URLSearchParams#toString: the encoded pairs joined by '&'. */
  function Serialize(ps: seq<Param>): string {
    if ps == [] then ""
    else if |ps| == 1 then EncodePair(ps[0])
    else EncodePair(ps[0]) + "&" + Serialize(ps[1..])
  }

  function IndexOf(s: string, c: char): (i: nat)
    requires c in s
    ensures i < |s| && s[i] == c && c !in s[..i]
  {
    if s[0] == c then 0 else 1 + IndexOf(s[1..], c)
  }

  /** The first `c` in `a + [c] + b` is the one after `a` when `a` holds none. */
  lemma {:induction false} IndexOfAfter(a: string, c: char, b: string)
    requires c !in a
    ensures IndexOf(a + [c] + b, c) == |a|
  {
    if a != [] {
      assert (a + [c] + b)[1..] == a[1..] + [c] + b;
      IndexOfAfter(a[1..], c, b);
    }
  }

  /** The '&'-separated pieces of a query string. */
  function SplitAmp(s: string): seq<string>
    decreases |s|
  {
    if '&' in s then
      var i := IndexOf(s, '&');
      [s[..i]] + SplitAmp(s[i + 1..])
    else [s]
  }

  /** One piece read as a pair: split at the first '=', or the whole piece as a name with an empty value. */
  function DecodePair(piece: string): Option<Param> {
    var (name, value) := if '=' in piece then
                           var i := IndexOf(piece, '='); (piece[..i], piece[i + 1..])
                         else (piece, "");
    match (DecodeComponent(name), DecodeComponent(value))
    case (Some(n), Some(v)) => Some((n, v))
    case _ => None
  }

  function DecodePieces(pieces: seq<string>): Option<seq<Param>> {
    if pieces == [] then Some([])
    else match DecodePieces(pieces[1..])
      case None => None
      case Some(rest) =>
        if pieces[0] == "" then Some(rest)
        else match DecodePair(pieces[0])
          case None => None
          case Some(p) => Some([p] + rest)
  }

  /** The form-urlencoded parser: empty pieces are skipped, the others become pairs in order. */
  function ParseQuery(q: string): Option<seq<Param>> {
    DecodePieces(SplitAmp(q))
  }

  lemma EncodedHasNo(s: string, c: char)
    requires c == '&' || c == '='
    ensures c !in Encode(s)
  {
    EncodeBytesChars(Utf8(s));
  }

  lemma DecodeEncodedPair(p: Param)
    ensures DecodePair(EncodePair(p)) == Some(p)
  {
    var piece := EncodePair(p);
    EncodedHasNo(p.0, '=');
    assert piece == Encode(p.0) + ['='] + Encode(p.1);
    IndexOfAfter(Encode(p.0), '=', Encode(p.1));
    var i := IndexOf(piece, '=');
    assert piece[..i] == Encode(p.0) && piece[i + 1..] == Encode(p.1);
    EncodeRoundTrip(p.0);
    EncodeRoundTrip(p.1);
  }

  /** The encoded pairs, one piece each. */
  function EncodePairs(ps: seq<Param>): seq<string> {
    if ps == [] then [] else [EncodePair(ps[0])] + EncodePairs(ps[1..])
  }

  lemma {:induction false} SplitSerialize(ps: seq<Param>)
    requires ps != []
    ensures SplitAmp(Serialize(ps)) == EncodePairs(ps)
  {
    EncodedHasNo(ps[0].0, '&');
    EncodedHasNo(ps[0].1, '&');
    var first := EncodePair(ps[0]);
    assert '&' !in first;
    if |ps| == 1 {
      assert EncodePairs(ps) == [first] + EncodePairs([]);
    } else {
      var s := first + ['&'] + Serialize(ps[1..]);
      assert s == Serialize(ps);
      IndexOfAfter(first, '&', Serialize(ps[1..]));
      var i := IndexOf(s, '&');
      assert s[..i] == first && s[i + 1..] == Serialize(ps[1..]);
      SplitSerialize(ps[1..]);
    }
  }

  lemma {:induction false} DecodeEncodedPieces(ps: seq<Param>)
    ensures DecodePieces(EncodePairs(ps)) == Some(ps)
  {
    if ps != [] {
      var pieces := EncodePairs(ps);
      assert pieces[1..] == EncodePairs(ps[1..]);
      DecodeEncodedPieces(ps[1..]);
      EncodedHasNo(ps[0].0, '&');
      assert pieces[0] == EncodePair(ps[0]) && pieces[0] != "";
      DecodeEncodedPair(ps[0]);
      assert DecodePieces(pieces) == Some([ps[0]] + ps[1..]);
      assert [ps[0]] + ps[1..] == ps;
    }
  }

  /** A server parsing the serialized query reads back exactly the pairs, in order. */
  lemma QueryRoundTrip(ps: seq<Param>)
    ensures ParseQuery(Serialize(ps)) == Some(ps)
  {
    if ps == [] {
      assert SplitAmp("") == [""];
    } else {
      SplitSerialize(ps);
      DecodeEncodedPieces(ps);
    }
  }
}
