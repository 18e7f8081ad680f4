/** The bytes behind the HTTP Basic `Authorization` header: a Ruby string's
    UTF-8 bytes (RFC 3629, section 3), `Base64.strict_encode64` (the base64
    alphabet of section 4 of RFC 4648, with padding and no line breaks) and
    the header itself (section 2 of RFC 7617). Each encoder comes with the
    decoder that undoes it. */
module Encoding {
  import opened RubyText

  type Byte = b: int | 0 <= b < 256

  /** The UTF-8 bytes of one Unicode scalar value. */
  function EncodeChar(c: char): (bs: seq<Byte>)
    ensures 1 <= |bs| <= 4
  {
    var n := c as int;
    if n < 0x80 then [n]
    else if n < 0x800 then [0xC0 + n / 64, 0x80 + n % 64]
    else if n < 0x10000 then [0xE0 + n / 4096, 0x80 + (n / 64) % 64, 0x80 + n % 64]
    else [0xF0 + n / 262144, 0x80 + (n / 4096) % 64, 0x80 + (n / 64) % 64, 0x80 + n % 64]
  }

  /** The UTF-8 bytes of a string (`String#bytes`). */
  function Utf8(s: string): (bs: seq<Byte>)
    ensures |bs| >= |s|
  {
    if |s| == 0 then [] else EncodeChar(s[0]) + Utf8(s[1..])
  }

  predicate IsScalar(n: int) {
    0 <= n < 0xD800 || 0xE000 <= n < 0x11_0000
  }

  predicate IsContinuation(b: Byte) {
    0x80 <= b < 0xC0
  }

  /** The character a UTF-8 sequence starts with, and how many bytes it uses;
      None for a malformed or overlong start. */
  function DecodeChar(bs: seq<Byte>): (r: Option<(char, nat)>)
    ensures r.Some? ==> 1 <= r.value.1 <= |bs|
  {
    if |bs| == 0 then None
    else if bs[0] < 0x80 then Some((bs[0] as char, 1))
    else if bs[0] < 0xC0 then None
    else if bs[0] < 0xE0 then
      if |bs| < 2 || !IsContinuation(bs[1]) then None
      else
        var n := (bs[0] as int - 0xC0) * 64 + (bs[1] as int - 0x80);
        if n < 0x80 then None else Some((n as char, 2))
    else if bs[0] < 0xF0 then
      if |bs| < 3 || !IsContinuation(bs[1]) || !IsContinuation(bs[2]) then None
      else
        var n := (bs[0] as int - 0xE0) * 4096 + (bs[1] as int - 0x80) * 64 + (bs[2] as int - 0x80);
        if n < 0x800 || !IsScalar(n) then None else Some((n as char, 3))
    else
      if |bs| < 4 || !IsContinuation(bs[1]) || !IsContinuation(bs[2]) || !IsContinuation(bs[3]) then None
      else
        var n := (bs[0] as int - 0xF0) * 262144 + (bs[1] as int - 0x80) * 4096 + (bs[2] as int - 0x80) * 64 + (bs[3] as int - 0x80);
        if n < 0x10000 || !IsScalar(n) then None else Some((n as char, 4))
  }

  /** Decodes UTF-8 bytes back into a string; None when they are malformed. */
  function Utf8Decode(bs: seq<Byte>): Option<string>
    decreases |bs|
  {
    if |bs| == 0 then Some("")
    else
      match DecodeChar(bs)
      case None => None
      case Some((c, k)) =>
        match Utf8Decode(bs[k..])
        case None => None
        case Some(rest) => Some([c] + rest)
  }

  lemma DecodeEncodeChar(c: char, rest: seq<Byte>)
    ensures DecodeChar(EncodeChar(c) + rest) == Some((c, |EncodeChar(c)|))
  {
    var n := c as int;
    if n < 0x80 {
    } else if n < 0x800 {
      DecodeTwoBytes(c, rest);
    } else if n < 0x10000 {
      DecodeThreeBytes(c, rest);
    } else {
      DecodeFourBytes(c, rest);
    }
  }

  lemma DecodeTwoBytes(c: char, rest: seq<Byte>)
    requires 0x80 <= c as int < 0x800
    ensures DecodeChar(EncodeChar(c) + rest) == Some((c, 2))
  {
    var n := c as int;
    var bs := EncodeChar(c) + rest;
    assert bs[0] == 0xC0 + n / 64 && bs[1] == 0x80 + n % 64;
    assert (bs[0] as int - 0xC0) * 64 + (bs[1] as int - 0x80) == n;
  }

  lemma DecodeThreeBytes(c: char, rest: seq<Byte>)
    requires 0x800 <= c as int < 0x10000
    ensures DecodeChar(EncodeChar(c) + rest) == Some((c, 3))
  {
    var n := c as int;
    var bs := EncodeChar(c) + rest;
    assert bs[0] == 0xE0 + n / 4096 && bs[1] == 0x80 + (n / 64) % 64 && bs[2] == 0x80 + n % 64;
    assert (bs[0] as int - 0xE0) * 4096 + (bs[1] as int - 0x80) * 64 + (bs[2] as int - 0x80) == n;
  }

  lemma DecodeFourBytes(c: char, rest: seq<Byte>)
    requires 0x10000 <= c as int
    ensures DecodeChar(EncodeChar(c) + rest) == Some((c, 4))
  {
    var n := c as int;
    var bs := EncodeChar(c) + rest;
    assert bs[0] == 0xF0 + n / 262144 && bs[1] == 0x80 + (n / 4096) % 64;
    assert bs[2] == 0x80 + (n / 64) % 64 && bs[3] == 0x80 + n % 64;
    FourByteDigits(n);
  }

  lemma FourByteDigits(n: nat)
    ensures (n / 262144) * 262144 + ((n / 4096) % 64) * 4096 + ((n / 64) % 64) * 64 + n % 64 == n
  {
    var a, r := n / 4096, n % 4096;
    assert n == 4096 * a + r;
    assert n / 64 == 64 * a + r / 64;
    assert (n / 64) % 64 == r / 64;
    assert n % 64 == r % 64;
    assert n == 262144 * (a / 64) + 4096 * (a % 64) + r;
    assert n / 262144 == a / 64;
  }

  /** UTF-8 loses nothing: decoding the bytes of a string gives it back. */
  lemma {:induction false} Utf8RoundTrip(s: string)
    ensures Utf8Decode(Utf8(s)) == Some(s)
    decreases |s|
  {
    if |s| > 0 {
      var head := EncodeChar(s[0]);
      var bs := Utf8(s);
      DecodeEncodeChar(s[0], Utf8(s[1..]));
      assert bs[|head|..] == Utf8(s[1..]);
      Utf8RoundTrip(s[1..]);
      assert s == [s[0]] + s[1..];
    }
  }

  type Sextet = i: int | 0 <= i < 64

  /** The base64 alphabet of RFC 4648, section 4 (table 1). */
  function Alphabet(i: Sextet): (c: char)
    ensures SextetOf(c) == Some(i)
  {
    if i < 26 then ('A' as int + i) as char
    else if i < 52 then ('a' as int + i - 26) as char
    else if i < 62 then ('0' as int + i - 52) as char
    else if i == 62 then '+'
    else '/'
  }

  /** The value of a base64 alphabet character. */
  function SextetOf(c: char): (r: Option<Sextet>)
    ensures c == '=' ==> r.None?
  {
    if 'A' <= c <= 'Z' then Some(c as int - 'A' as int)
    else if 'a' <= c <= 'z' then Some(c as int - 'a' as int + 26)
    else if '0' <= c <= '9' then Some(c as int - '0' as int + 52)
    else if c == '+' then Some(62)
    else if c == '/' then Some(63)
    else None
  }

  /** Three bytes as four characters. */
  function EncodeGroup(b0: Byte, b1: Byte, b2: Byte): (q: string)
    ensures |q| == 4 && forall i :: 0 <= i < 4 ==> SextetOf(q[i]).Some?
  {
    [Alphabet(b0 / 4), Alphabet((b0 % 4) * 16 + b1 / 16), Alphabet((b1 % 16) * 4 + b2 / 64), Alphabet(b2 % 64)]
  }

  /** A final single byte: two characters and "==". */
  function EncodeLastOne(b0: Byte): (q: string)
    ensures |q| == 4 && SextetOf(q[0]).Some? && SextetOf(q[1]).Some? && q[2] == '=' && q[3] == '='
  {
    [Alphabet(b0 / 4), Alphabet((b0 % 4) * 16), '=', '=']
  }

  /** A final two bytes: three characters and "=". */
  function EncodeLastTwo(b0: Byte, b1: Byte): (q: string)
    ensures |q| == 4 && SextetOf(q[0]).Some? && SextetOf(q[1]).Some? && SextetOf(q[2]).Some? && q[3] == '='
  {
    [Alphabet(b0 / 4), Alphabet((b0 % 4) * 16 + b1 / 16), Alphabet((b1 % 16) * 4), '=']
  }

  /** `Base64.strict_encode64`: every 3 bytes become 4 characters; a final 1
      or 2 bytes are padded with "==" or "=". */
  function Base64Encode(bs: seq<Byte>): (s: string)
    ensures |s| == 4 * ((|bs| + 2) / 3)
    decreases |bs|
  {
    if |bs| == 0 then ""
    else if |bs| == 1 then EncodeLastOne(bs[0])
    else if |bs| == 2 then EncodeLastTwo(bs[0], bs[1])
    else
      assert (|bs| + 2) / 3 == (|bs[3..]| + 2) / 3 + 1;
      EncodeGroup(bs[0], bs[1], bs[2]) + Base64Encode(bs[3..])
  }

  /** Decodes one group of four characters; `last` says whether padding may
      appear in it. */
  function DecodeQuad(q: string, last: bool): Option<seq<Byte>>
    requires |q| == 4
  {
    var s0, s1 := SextetOf(q[0]), SextetOf(q[1]);
    if s0.None? || s1.None? then None
    else
      var b0 := s0.value * 4 + s1.value / 16;
      if q[2] == '=' then
        if q[3] == '=' && last then Some([b0]) else None
      else
        var s2 := SextetOf(q[2]);
        if s2.None? then None
        else
          var b1 := (s1.value % 16) * 16 + s2.value / 4;
          if q[3] == '=' then
            if last then Some([b0, b1]) else None
          else
            var s3 := SextetOf(q[3]);
            if s3.None? then None
            else Some([b0, b1, (s2.value % 4) * 64 + s3.value])
  }

  /** `Base64.strict_decode64`: the inverse of `Base64Encode`; None when the
      text is not a whole number of groups or holds other characters. */
  function Base64Decode(s: string): Option<seq<Byte>>
    decreases |s|
  {
    if |s| == 0 then Some([])
    else if |s| < 4 then None
    else
      match DecodeQuad(s[..4], |s| == 4)
      case None => None
      case Some(head) =>
        match Base64Decode(s[4..])
        case None => None
        case Some(rest) => Some(head + rest)
  }

  /** Splitting `a * 16 + b` with `b < 16` by 16. */
  lemma DivMod16(a: nat, b: nat)
    requires b < 16
    ensures (a * 16 + b) / 16 == a && (a * 16 + b) % 16 == b
  {
  }

  /** Splitting `a * 4 + b` with `b < 4` by 4. */
  lemma DivMod4(a: nat, b: nat)
    requires b < 4
    ensures (a * 4 + b) / 4 == a && (a * 4 + b) % 4 == b
  {
  }

  lemma FirstByte(b0: Byte, b1: Byte)
    ensures (b0 / 4) * 4 + ((b0 % 4) * 16 + b1 / 16) / 16 == b0
  {
    DivMod16(b0 % 4, b1 / 16);
  }

  lemma SecondByte(b0: Byte, b1: Byte, b2: Byte)
    ensures (((b0 % 4) * 16 + b1 / 16) % 16) * 16 + ((b1 % 16) * 4 + b2 / 64) / 4 == b1
  {
    DivMod16(b0 % 4, b1 / 16);
    DivMod4(b1 % 16, b2 / 64);
  }

  lemma ThirdByte(b1: Byte, b2: Byte)
    ensures (((b1 % 16) * 4 + b2 / 64) % 4) * 64 + b2 % 64 == b2
  {
    DivMod4(b1 % 16, b2 / 64);
  }

  lemma DecodeGroup(b0: Byte, b1: Byte, b2: Byte, last: bool)
    ensures DecodeQuad(EncodeGroup(b0, b1, b2), last) == Some([b0, b1, b2])
  {
    var q := EncodeGroup(b0, b1, b2);
    var s1 := (b0 % 4) * 16 + b1 / 16;
    var s2 := (b1 % 16) * 4 + b2 / 64;
    assert SextetOf(q[0]) == Some(b0 / 4);
    assert SextetOf(q[1]) == Some(s1);
    assert SextetOf(q[2]) == Some(s2);
    assert SextetOf(q[3]) == Some(b2 % 64);
    assert q[2] != '=' && q[3] != '=';
    FirstByte(b0, b1);
    SecondByte(b0, b1, b2);
    ThirdByte(b1, b2);
  }

  lemma DecodeLastOne(b0: Byte)
    ensures DecodeQuad(EncodeLastOne(b0), true) == Some([b0])
  {
    var s1 := (b0 % 4) * 16;
    assert (b0 / 4) * 4 + s1 / 16 == b0;
  }

  lemma DecodeLastTwo(b0: Byte, b1: Byte)
    ensures DecodeQuad(EncodeLastTwo(b0, b1), true) == Some([b0, b1])
  {
    var s1 := (b0 % 4) * 16 + b1 / 16;
    var s2 := (b1 % 16) * 4;
    assert (b0 / 4) * 4 + s1 / 16 == b0;
    assert (s1 % 16) * 16 + s2 / 4 == b1;
  }

  /** base64 loses nothing: decoding the encoding of bytes gives them back. */
  lemma {:induction false} Base64RoundTrip(bs: seq<Byte>)
    ensures Base64Decode(Base64Encode(bs)) == Some(bs)
    decreases |bs|
  {
    if |bs| == 1 || |bs| == 2 {
      RoundTripShort(bs);
    } else if |bs| >= 3 {
      var head, tail := bs[..3], bs[3..];
      var q, rest := EncodeGroup(bs[0], bs[1], bs[2]), Base64Encode(tail);
      assert Base64Encode(bs) == q + rest;
      DecodeGroup(bs[0], bs[1], bs[2], |rest| == 0);
      assert head == [bs[0], bs[1], bs[2]];
      Base64RoundTrip(tail);
      DecodeConcat(q, rest, head, tail);
      assert bs == head + tail;
    }
  }

  /** The round trip of a final one or two bytes. */
  lemma RoundTripShort(bs: seq<Byte>)
    requires |bs| == 1 || |bs| == 2
    ensures Base64Decode(Base64Encode(bs)) == Some(bs)
  {
    if |bs| == 1 {
      DecodeLastOne(bs[0]);
      DecodeLast(EncodeLastOne(bs[0]), [bs[0]]);
      assert [bs[0]] == bs;
    } else {
      DecodeLastTwo(bs[0], bs[1]);
      DecodeLast(EncodeLastTwo(bs[0], bs[1]), [bs[0], bs[1]]);
      assert [bs[0], bs[1]] == bs;
    }
  }

  /** A text of one group decodes as its last group. */
  lemma DecodeLast(q: string, head: seq<Byte>)
    requires |q| == 4 && DecodeQuad(q, true) == Some(head)
    ensures Base64Decode(q) == Some(head)
  {
    assert q[..4] == q;
    assert q[4..] == [];
    assert head + [] == head;
  }

  /** A decodable group followed by decodable text decodes to both. */
  lemma DecodeConcat(q: string, rest: string, head: seq<Byte>, tail: seq<Byte>)
    requires |q| == 4
    requires DecodeQuad(q, |rest| == 0) == Some(head)
    requires Base64Decode(rest) == Some(tail)
    ensures Base64Decode(q + rest) == Some(head + tail)
  {
    var s := q + rest;
    assert s[..4] == q && s[4..] == rest;
  }

  /** Splits at the first occurrence of `sep`. */
  function SplitAtFirst(s: string, sep: char): Option<(string, string)>
    decreases |s|
  {
    if |s| == 0 then None
    else if s[0] == sep then Some(("", s[1..]))
    else
      match SplitAtFirst(s[1..], sep)
      case None => None
      case Some((a, b)) => Some(([s[0]] + a, b))
  }

  lemma {:induction false} SplitAtFirstJoin(a: string, sep: char, b: string)
    requires sep !in a
    ensures SplitAtFirst(a + [sep] + b, sep) == Some((a, b))
    decreases |a|
  {
    var s := a + [sep] + b;
    if |a| > 0 {
      assert s[0] == a[0];
      assert s[1..] == a[1..] + [sep] + b;
      SplitAtFirstJoin(a[1..], sep, b);
      assert [a[0]] + a[1..] == a;
    } else {
      assert s[1..] == b;
    }
  }

  const BasicScheme := "Basic "

  /** The value of an `Authorization` header for HTTP Basic authentication
      (section 2 of RFC 7617): the scheme, then the base64 of the UTF-8 bytes
      of user-id ":" password. */
  function BasicAuthorization(userId: string, password: string): (h: string)
    ensures BasicScheme <= h
    ensures |h| == |BasicScheme| + 4 * ((|Utf8(userId + ":" + password)| + 2) / 3)
  {
    BasicScheme + Base64Encode(Utf8(userId + ":" + password))
  }

  /** What a server reads back from a Basic `Authorization` header. */
  function BasicCredentials(h: string): Option<(string, string)> {
    if !(BasicScheme <= h) then None
    else
      match Base64Decode(h[|BasicScheme|..])
      case None => None
      case Some(bytes) =>
        match Utf8Decode(bytes)
        case None => None
        case Some(text) => SplitAtFirst(text, ':')
  }

  /** The header carries exactly the credentials it was built from, provided
      the user-id has no colon (which RFC 7617 forbids). */
  lemma BasicCredentialsRoundTrip(userId: string, password: string)
    requires ':' !in userId
    ensures BasicCredentials(BasicAuthorization(userId, password)) == Some((userId, password))
  {
    var text := userId + ":" + password;
    var h := BasicAuthorization(userId, password);
    assert h[|BasicScheme|..] == Base64Encode(Utf8(text));
    Base64RoundTrip(Utf8(text));
    Utf8RoundTrip(text);
    SplitAtFirstJoin(userId, ':', password);
  }
}
