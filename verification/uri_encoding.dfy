/** `encodeURIComponent`, which the collection client applies to the user's
    query before placing it in the search URL: characters outside the
    unreserved set are written as `%XX` escapes of their UTF-8 bytes. */
module UriEncoding {

  /** The characters `encodeURIComponent` leaves as they are. */
  predicate IsUnreserved(c: char) {
    ('A' <= c <= 'Z') || ('a' <= c <= 'z') || ('0' <= c <= '9') ||
    c == '-' || c == '_' || c == '.' || c == '!' || c == '~' || c == '*' ||
    c == '\'' || c == '(' || c == ')'
  }

  predicate IsHex(c: char) {
    ('0' <= c <= '9') || ('A' <= c <= 'F') || ('a' <= c <= 'f')
  }

  /** Upper-case hexadecimal digit, as the escapes are written. */
  function HexDigit(d: nat): (c: char)
    requires d < 16
    ensures IsHex(c) && IsUnreserved(c)
  {
    if d < 10 then ('0' as int + d) as char else ('A' as int + d - 10) as char
  }

  function HexValue(c: char): (d: nat)
    requires IsHex(c)
    ensures d < 16
  {
    if '0' <= c <= '9' then c as int - '0' as int
    else if 'A' <= c <= 'F' then c as int - 'A' as int + 10
    else c as int - 'a' as int + 10
  }

  predicate IsByteSeq(bs: seq<int>) {
    forall i :: 0 <= i < |bs| ==> 0 <= bs[i] < 256
  }

  /** The UTF-8 encoding of one Unicode scalar value. */
  function Utf8(c: char): (bs: seq<int>)
    ensures 1 <= |bs| <= 4 && IsByteSeq(bs)
    ensures |bs| == 1 <==> (c as int) < 0x80
  {
    var cp := c as int;
    if cp < 0x80 then [cp]
    else if cp < 0x800 then [0xC0 + cp / 0x40, 0x80 + cp % 0x40]
    else if cp < 0x10000 then [0xE0 + cp / 0x1000, 0x80 + (cp / 0x40) % 0x40, 0x80 + cp % 0x40]
    else [0xF0 + cp / 0x40000, 0x80 + (cp / 0x1000) % 0x40, 0x80 + (cp / 0x40) % 0x40, 0x80 + cp % 0x40]
  }

  /** The UTF-8 encoding of a whole string. */
  function Utf8String(s: string): (bs: seq<int>)
    ensures IsByteSeq(bs)
  {
    if |s| == 0 then [] else Utf8(s[0]) + Utf8String(s[1..])
  }

  /** `%XX` for each byte. */
  function PercentBytes(bs: seq<int>): (r: string)
    requires IsByteSeq(bs)
    ensures |r| == 3 * |bs|
    ensures forall i :: 0 <= i < |r| ==> IsUnreserved(r[i]) || r[i] == '%'
  {
    if |bs| == 0 then [] else ['%', HexDigit(bs[0] / 16), HexDigit(bs[0] % 16)] + PercentBytes(bs[1..])
  }

  function EncodeChar(c: char): (r: string)
    ensures forall i :: 0 <= i < |r| ==> IsUnreserved(r[i]) || r[i] == '%'
  {
    if IsUnreserved(c) then [c] else PercentBytes(Utf8(c))
  }

  /** `encodeURIComponent(s)`. */
  function EncodeURIComponent(s: string): (r: string)
    ensures forall i :: 0 <= i < |r| ==> IsUnreserved(r[i]) || r[i] == '%'
  {
    if |s| == 0 then [] else EncodeChar(s[0]) + EncodeURIComponent(s[1..])
  }

  /** Decoding of `%XX` escapes down to bytes; any other character stands
      for its own code. */
  function PercentDecode(s: string): seq<int> {
    if |s| == 0 then []
    else if s[0] == '%' && |s| >= 3 && IsHex(s[1]) && IsHex(s[2]) then
      [HexValue(s[1]) * 16 + HexValue(s[2])] + PercentDecode(s[3..])
    else
      [s[0] as int] + PercentDecode(s[1..])
  }

  lemma {:induction false} DecodePercentBytes(bs: seq<int>, rest: string)
    requires IsByteSeq(bs)
    ensures PercentDecode(PercentBytes(bs) + rest) == bs + PercentDecode(rest)
  {
    if |bs| > 0 {
      var b := bs[0];
      var h1, h2 := HexDigit(b / 16), HexDigit(b % 16);
      var tail := PercentBytes(bs[1..]) + rest;
      var whole := PercentBytes(bs) + rest;
      assert whole == ['%', h1, h2] + tail;
      assert whole[0] == '%' && whole[1] == h1 && whole[2] == h2;
      assert whole[3..] == tail;
      assert HexValue(h1) * 16 + HexValue(h2) == b;
      assert PercentDecode(whole) == [b] + PercentDecode(tail);
      DecodePercentBytes(bs[1..], rest);
      assert bs == [b] + bs[1..];
      assert [b] + (bs[1..] + PercentDecode(rest)) == bs + PercentDecode(rest);
    } else {
      assert PercentBytes(bs) + rest == rest;
    }
  }

  lemma DecodeEncodeChar(c: char, rest: string)
    ensures PercentDecode(EncodeChar(c) + rest) == Utf8(c) + PercentDecode(rest)
  {
    if IsUnreserved(c) {
      assert ([c] + rest)[1..] == rest;
    } else {
      DecodePercentBytes(Utf8(c), rest);
    }
  }

  /** Decoding the escapes of `encodeURIComponent(s)` gives back exactly the
      UTF-8 bytes of `s`: the encoding loses nothing. */
  lemma {:induction false} DecodeEncode(s: string)
    ensures PercentDecode(EncodeURIComponent(s)) == Utf8String(s)
  {
    if |s| > 0 {
      DecodeEncodeChar(s[0], EncodeURIComponent(s[1..]));
      DecodeEncode(s[1..]);
    }
  }

  /** The encoded text never contains a character that would end or split a
      query-string parameter. */
  lemma EncodedHasNoDelimiters(s: string)
    ensures forall i :: 0 <= i < |EncodeURIComponent(s)| ==>
      EncodeURIComponent(s)[i] !in {'&', '=', '#', '?', ' ', '+'}
  {
  }
}
