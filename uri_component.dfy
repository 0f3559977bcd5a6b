/** `encodeURIComponent`, and the decoding a page applies when it reads a
    query parameter back (`URLSearchParams.get`), used as its inverse. */
module UriComponent {

  /** The characters `encodeURIComponent` leaves as they are. */
  predicate IsUnreserved(c: char) {
    || ('A' <= c <= 'Z') || ('a' <= c <= 'z') || ('0' <= c <= '9')
    || c == '-' || c == '_' || c == '.' || c == '!' || c == '~'
    || c == '*' || c == '\'' || c == '(' || c == ')'
  }

  predicate IsHexDigit(c: char) {
    ('0' <= c <= '9') || ('A' <= c <= 'F') || ('a' <= c <= 'f')
  }

  /** What may appear in an encoded component: no `&`, `=`, `#`, `+`,
      `?` or space, so the value can neither end nor split the query. */
  predicate IsEncodedChar(c: char) {
    IsUnreserved(c) || c == '%' || IsHexDigit(c)
  }

  function HexDigit(n: int): (c: char)
    requires 0 <= n < 16
    ensures IsHexDigit(c)
  {
    if n < 10 then ('0' as int + n) as char else ('A' as int + n - 10) as char
  }

  function HexValue(c: char): (n: int)
    requires IsHexDigit(c)
    ensures 0 <= n < 16
  {
    if '0' <= c <= '9' then c as int - '0' as int
    else if 'A' <= c <= 'F' then c as int - 'A' as int + 10
    else c as int - 'a' as int + 10
  }

  lemma HexRoundTrip(n: int)
    requires 0 <= n < 16
    ensures HexValue(HexDigit(n)) == n
  {
  }

  /** The UTF-8 bytes of a code point. */
  function Utf8(cp: int): (bytes: seq<int>)
    requires 0 <= cp <= 0x10FFFF
    ensures 1 <= |bytes| <= 4
    ensures forall i :: 0 <= i < |bytes| ==> 0 <= bytes[i] < 256
    ensures cp < 0x80 <==> bytes == [cp]
  {
    if cp < 0x80 then [cp]
    else if cp < 0x800 then [0xC0 + cp / 0x40, 0x80 + cp % 0x40]
    else if cp < 0x10000 then [0xE0 + cp / 0x1000, 0x80 + (cp / 0x40) % 0x40, 0x80 + cp % 0x40]
    else [0xF0 + cp / 0x40000, 0x80 + (cp / 0x1000) % 0x40, 0x80 + (cp / 0x40) % 0x40, 0x80 + cp % 0x40]
  }

  /** `%XX` with upper-case hexadecimal digits. */
  function PercentByte(b: int): (r: string)
    requires 0 <= b < 256
    ensures |r| == 3 && r[0] == '%' && IsHexDigit(r[1]) && IsHexDigit(r[2])
    ensures PercentTriples(r)
  {
    ['%', HexDigit(b / 16), HexDigit(b % 16)]
  }

  /** Every `%` in `r` starts a `%XX` triple. */
  predicate PercentTriples(r: string) {
    forall i :: 0 <= i < |r| && r[i] == '%' ==> i + 2 < |r| && IsHexDigit(r[i + 1]) && IsHexDigit(r[i + 2])
  }

  lemma TriplesConcat(a: string, b: string)
    requires PercentTriples(a) && PercentTriples(b)
    ensures PercentTriples(a + b)
  {
    forall i | 0 <= i < |a + b| && (a + b)[i] == '%'
      ensures i + 2 < |a + b| && IsHexDigit((a + b)[i + 1]) && IsHexDigit((a + b)[i + 2])
    {
      if i < |a| {
        assert a[i] == '%';
      } else {
        assert b[i - |a|] == '%';
      }
    }
  }

  /** One `%XX` triple per byte. */
  function PercentBytes(bytes: seq<int>): (r: string)
    requires forall i :: 0 <= i < |bytes| ==> 0 <= bytes[i] < 256
    ensures |r| == 3 * |bytes|
    ensures forall i :: 0 <= i < |r| ==> IsEncodedChar(r[i])
    ensures PercentTriples(r)
  {
    if bytes == [] then []
    else
      TriplesConcat(PercentByte(bytes[0]), PercentBytes(bytes[1..]));
      PercentByte(bytes[0]) + PercentBytes(bytes[1..])
  }

  function EncodeChar(c: char): (r: string)
    ensures forall i :: 0 <= i < |r| ==> IsEncodedChar(r[i])
    ensures PercentTriples(r)
  {
    if IsUnreserved(c) then [c]
    else PercentBytes(Utf8(c as int))
  }

  /** `encodeURIComponent(s)`. */
  function Encode(s: string): (r: string)
    ensures |r| >= |s|
    ensures forall i :: 0 <= i < |r| ==> IsEncodedChar(r[i])
    ensures PercentTriples(r)
  {
    if s == [] then []
    else
      TriplesConcat(EncodeChar(s[0]), Encode(s[1..]));
      EncodeChar(s[0]) + Encode(s[1..])
  }

  /** `application/x-www-form-urlencoded` decoding of one value, byte by
      byte: `+` is a space and `%XX` the character with that code. For
      ASCII this is what `URLSearchParams.get` returns. */
  function Decode(s: string): string
  {
    if s == [] then []
    else if s[0] == '+' then [' '] + Decode(s[1..])
    else if s[0] == '%' && |s| >= 3 && IsHexDigit(s[1]) && IsHexDigit(s[2]) then
      [(HexValue(s[1]) * 16 + HexValue(s[2])) as char] + Decode(s[3..])
    else [s[0]] + Decode(s[1..])
  }

  predicate IsAscii(s: string) {
    forall i :: 0 <= i < |s| ==> s[i] < '\U{80}'
  }

  lemma DecodeEncodedChar(c: char, rest: string)
    requires c < '\U{80}'
    ensures Decode(EncodeChar(c) + rest) == [c] + Decode(rest)
  {
    var e := EncodeChar(c);
    if IsUnreserved(c) {
      assert (e + rest)[1..] == rest;
    } else {
      var b := c as int;
      assert e == PercentByte(b) by {
        assert PercentBytes([b]) == PercentByte(b) + PercentBytes([]);
      }
      HexRoundTrip(b / 16);
      HexRoundTrip(b % 16);
      assert (e + rest)[3..] == rest;
    }
  }

  /** Decoding undoes encoding for ASCII text. */
  lemma {:induction false} DecodeEncode(s: string)
    requires IsAscii(s)
    ensures Decode(Encode(s)) == s
  {
    if s != [] {
      DecodeEncodedChar(s[0], Encode(s[1..]));
      DecodeEncode(s[1..]);
      assert s == [s[0]] + s[1..];
    }
  }
}
