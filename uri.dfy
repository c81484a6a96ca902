/**
 * `encodeURIComponent`: every character outside the unreserved set is
 * written as its UTF-8 bytes, each as `%` and two upper-case hex digits.
 * A Dafny `char` is a Unicode scalar value, so the lone surrogates on which
 * the JavaScript function throws cannot occur.
 */
module Uri {
  import opened Wrappers

  /** The characters `encodeURIComponent` leaves alone. */
  predicate Unreserved(c: char) {
    'A' <= c <= 'Z' || 'a' <= c <= 'z' || '0' <= c <= '9' || c in "-_.!~*'()"
  }

  /** The UTF-8 encoding of one scalar value. */
  function Utf8(c: char): (bytes: seq<int>)
    ensures 1 <= |bytes| <= 4
    ensures forall i :: 0 <= i < |bytes| ==> 0 <= bytes[i] < 256
    ensures |bytes| == 1 <==> (c as int) < 0x80
  {
    var n := c as int;
    if n < 0x80 then [n]
    else if n < 0x800 then [0xC0 + n / 64, 0x80 + n % 64]
    else if n < 0x1_0000 then [0xE0 + n / 4096, 0x80 + (n / 64) % 64, 0x80 + n % 64]
    else [0xF0 + n / 262144, 0x80 + (n / 4096) % 64, 0x80 + (n / 64) % 64, 0x80 + n % 64]
  }

  function HexDigit(d: int): char
    requires 0 <= d < 16
  {
    if d < 10 then ('0' as int + d) as char else ('A' as int + d - 10) as char
  }

  predicate IsHexDigit(c: char) {
    '0' <= c <= '9' || 'A' <= c <= 'F'
  }

  /** Every `%` starts an escape: two upper-case hex digits follow it. */
  predicate WellEscaped(r: string) {
    forall i :: 0 <= i < |r| && r[i] == '%' ==> i + 2 < |r| && IsHexDigit(r[i + 1]) && IsHexDigit(r[i + 2])
  }

  lemma EscapedJoin(a: string, b: string)
    requires WellEscaped(a) && WellEscaped(b)
    ensures WellEscaped(a + b)
  {
    forall i | 0 <= i < |a + b| && (a + b)[i] == '%'
      ensures i + 2 < |a + b| && IsHexDigit((a + b)[i + 1]) && IsHexDigit((a + b)[i + 2])
    {
      if i >= |a| {
        assert b[i - |a|] == '%';
        assert (a + b)[i + 1] == b[i - |a| + 1] && (a + b)[i + 2] == b[i - |a| + 2];
      }
    }
  }

  /** `%XX` for each byte. */
  function PercentBytes(bytes: seq<int>): (r: string)
    requires forall i :: 0 <= i < |bytes| ==> 0 <= bytes[i] < 256
    ensures |r| == 3 * |bytes|
    ensures forall i :: 0 <= i < |r| ==> (r[i] == '%' <==> i % 3 == 0) && (i % 3 != 0 ==> IsHexDigit(r[i]))
    ensures WellEscaped(r)
  {
    if bytes == [] then []
    else
      var rest := PercentBytes(bytes[1..]);
      var escape := ['%', HexDigit(bytes[0] / 16), HexDigit(bytes[0] % 16)];
      var r := escape + rest;
      assert forall i :: 3 <= i < |r| ==> r[i] == rest[i - 3];
      EscapedJoin(escape, rest);
      r
  }

  function EncodeChar(c: char): (r: string)
    ensures Unreserved(c) ==> r == [c]
    ensures !Unreserved(c) ==> |r| >= 3 && r[0] == '%'
    ensures forall i :: 0 <= i < |r| ==> Unreserved(r[i]) || r[i] == '%'
    ensures WellEscaped(r)
  {
    if Unreserved(c) then [c] else PercentBytes(Utf8(c))
  }

  function EncodeURIComponent(s: string): (r: string)
    ensures |r| >= |s|
    ensures forall i :: 0 <= i < |r| ==> Unreserved(r[i]) || r[i] == '%'
    ensures WellEscaped(r)
  {
    if s == [] then []
    else
      var head := EncodeChar(s[0]);
      var rest := EncodeURIComponent(s[1..]);
      assert forall i :: |head| <= i < |head| + |rest| ==> (head + rest)[i] == rest[i - |head|];
      EscapedJoin(head, rest);
      head + rest
  }

  /** A string of unreserved characters is its own encoding. */
  lemma {:induction false} EncodeUnreserved(s: string)
    requires forall i :: 0 <= i < |s| ==> Unreserved(s[i])
    ensures EncodeURIComponent(s) == s
  {
    if s != [] {
      EncodeUnreserved(s[1..]);
    }
  }

  /** The delimiters of a query string never survive encoding, so a value
      cannot end its parameter early or start another one. */
  lemma EncodedHasNoDelimiter(s: string)
    ensures '&' !in EncodeURIComponent(s) && '=' !in EncodeURIComponent(s)
    ensures '?' !in EncodeURIComponent(s) && '#' !in EncodeURIComponent(s)
  {
  }

  function HexValue(c: char): (v: int)
    requires IsHexDigit(c)
    ensures 0 <= v < 16
  {
    if c <= '9' then c as int - '0' as int else c as int - 'A' as int + 10
  }

  /** One `%XX` escape at the start of `s`: the byte, and the text after it. */
  function ReadByte(s: string): (r: Option<(int, string)>)
    ensures r.Some? ==> |s| >= 3 && 0 <= r.value.0 < 256 && r.value.1 == s[3..]
  {
    if |s| >= 3 && s[0] == '%' && IsHexDigit(s[1]) && IsHexDigit(s[2]) then
      Some((16 * HexValue(s[1]) + HexValue(s[2]), s[3..]))
    else None
  }

  /** `n` escapes in a row: their bytes, and the text after them. */
  function ReadBytes(s: string, n: nat): (r: Option<(seq<int>, string)>)
    ensures r.Some? ==> |r.value.0| == n && 3 * n <= |s| && r.value.1 == s[3 * n..]
    ensures r.Some? ==> forall i :: 0 <= i < n ==> 0 <= r.value.0[i] < 256
  {
    if n == 0 then Some(([], s))
    else match ReadByte(s)
      case None => None
      case Some((b, rest)) =>
        match ReadBytes(rest, n - 1)
        case None => None
        case Some((bs, after)) => Some(([b] + bs, after))
  }

  /** How many bytes a UTF-8 sequence with this first byte has. */
  function SequenceLength(lead: int): nat {
    if lead < 0x80 then 1 else if lead < 0xE0 then 2 else if lead < 0xF0 then 3 else 4
  }

  /** The scalar value a UTF-8 sequence of one to four bytes stands for,
      when it is one. */
  function DecodeScalar(bytes: seq<int>): Option<char>
    requires 1 <= |bytes| <= 4
  {
    var v :=
      if |bytes| == 1 then bytes[0]
      else if |bytes| == 2 then (bytes[0] - 0xC0) * 64 + (bytes[1] - 0x80)
      else if |bytes| == 3 then (bytes[0] - 0xE0) * 4096 + (bytes[1] - 0x80) * 64 + (bytes[2] - 0x80)
      else (bytes[0] - 0xF0) * 262144 + (bytes[1] - 0x80) * 4096 + (bytes[2] - 0x80) * 64 + (bytes[3] - 0x80);
    if 0 <= v < 0xD800 || 0xE000 <= v < 0x11_0000 then Some(v as char) else None
  }

  /** `decodeURIComponent`: a `%` starts the escapes of one UTF-8 sequence,
      every other character stands for itself; `None` is a `URIError`. */
  function DecodeURIComponent(s: string): Option<string>
    decreases |s|
  {
    if s == [] then Some([])
    else if s[0] != '%' then
      match DecodeURIComponent(s[1..])
      case None => None
      case Some(rest) => Some([s[0]] + rest)
    else
      match ReadByte(s)
      case None => None
      case Some((lead, _)) =>
        match ReadBytes(s, SequenceLength(lead))
        case None => None
        case Some((bytes, after)) =>
          match DecodeScalar(bytes)
          case None => None
          case Some(c) =>
            match DecodeURIComponent(after)
            case None => None
            case Some(rest) => Some([c] + rest)
  }

  lemma HexDigitValue(d: int)
    requires 0 <= d < 16
    ensures IsHexDigit(HexDigit(d)) && HexValue(HexDigit(d)) == d
  {
  }

  /** The escapes `PercentBytes` writes read back as the same bytes. */
  lemma {:induction false} ReadPercentBytes(bytes: seq<int>, rest: string)
    requires forall i :: 0 <= i < |bytes| ==> 0 <= bytes[i] < 256
    ensures ReadBytes(PercentBytes(bytes) + rest, |bytes|) == Some((bytes, rest))
  {
    if bytes != [] {
      var b := bytes[0];
      var s := PercentBytes(bytes) + rest;
      HexDigitValue(b / 16);
      HexDigitValue(b % 16);
      assert s[0] == '%' && s[1] == HexDigit(b / 16) && s[2] == HexDigit(b % 16);
      assert s[3..] == PercentBytes(bytes[1..]) + rest;
      assert ReadByte(s) == Some((b, s[3..]));
      ReadPercentBytes(bytes[1..], rest);
      assert [b] + bytes[1..] == bytes;
    }
  }

  lemma DivMod64(n: int)
    requires n >= 0
    ensures n == (n / 64) * 64 + n % 64
    ensures n / 4096 == (n / 64) / 64
    ensures n / 262144 == (n / 4096) / 64
  {
  }

  /** The first byte of a character's encoding announces its length, and the
      bytes decode to the character. */
  lemma Utf8RoundTrip(c: char)
    ensures SequenceLength(Utf8(c)[0]) == |Utf8(c)|
    ensures DecodeScalar(Utf8(c)) == Some(c)
  {
    var n := c as int;
    DivMod64(n);
    DivMod64(n / 64);
    DivMod64(n / 4096);
  }

  /** Decoding undoes the encoding: `decodeURIComponent(encodeURIComponent(s))`
      is `s`. */
  lemma {:induction false} DecodeEncode(s: string)
    ensures DecodeURIComponent(EncodeURIComponent(s)) == Some(s)
  {
    if s != [] {
      DecodeEncode(s[1..]);
      assert EncodeURIComponent(s) == EncodeChar(s[0]) + EncodeURIComponent(s[1..]);
      if Unreserved(s[0]) {
        DecodePlain(s[0], EncodeURIComponent(s[1..]), s[1..]);
      } else {
        DecodeEscaped(s[0], EncodeURIComponent(s[1..]), s[1..]);
      }
      assert [s[0]] + s[1..] == s;
    }
  }

  /** An unreserved character decodes as itself. */
  lemma DecodePlain(c: char, rest: string, tail: string)
    requires Unreserved(c) && DecodeURIComponent(rest) == Some(tail)
    ensures DecodeURIComponent(EncodeChar(c) + rest) == Some([c] + tail)
  {
    var encoded := [c] + rest;
    assert c != '%';
    assert encoded[0] == c && encoded[1..] == rest;
  }

  /** The escapes of a character decode to that character. */
  lemma DecodeEscaped(c: char, rest: string, tail: string)
    requires !Unreserved(c) && DecodeURIComponent(rest) == Some(tail)
    ensures DecodeURIComponent(EncodeChar(c) + rest) == Some([c] + tail)
  {
    var bytes := Utf8(c);
    var encoded := PercentBytes(bytes) + rest;
    ReadPercentBytes(bytes, rest);
    Utf8RoundTrip(c);
    HexDigitValue(bytes[0] / 16);
    HexDigitValue(bytes[0] % 16);
    assert encoded[0] == '%' && encoded[1] == HexDigit(bytes[0] / 16) && encoded[2] == HexDigit(bytes[0] % 16);
    assert ReadByte(encoded) == Some((bytes[0], encoded[3..]));
  }
}
