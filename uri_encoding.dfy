/**
 * `encodeURIComponent` as section 15.1.3.4 of ECMA-262 5.1 defines it, over
 * strings of Unicode scalar values, and its inverse `decodeURIComponent`
 * (section 15.1.3.2), which undoes the encoding.
 */
module UriEncoding {
  import opened Wrappers

  /** uriAlpha: the ASCII letters. */
  predicate IsAlpha(c: char)
  {
    'a' <= c <= 'z' || 'A' <= c <= 'Z'
  }

  /** DecimalDigit: the ASCII digits. */
  predicate IsDecimalDigit(c: char)
  {
    '0' <= c <= '9'
  }

  /** uriMark: the nine punctuation characters left unescaped. */
  predicate IsMark(c: char)
  {
    c == '-' || c == '_' || c == '.' || c == '!' || c == '~' || c == '*'
    || c == '\'' || c == '(' || c == ')'
  }

  /** uriUnreserved, the unescaped set of encodeURIComponent. */
  predicate IsUnreserved(c: char)
  {
    IsAlpha(c) || IsDecimalDigit(c) || IsMark(c)
  }

  /** A hexadecimal digit as the encoder writes it: 0-9 and upper-case A-F. */
  predicate IsUpperHex(c: char)
  {
    '0' <= c <= '9' || 'A' <= c <= 'F'
  }

  /** A character the encoder may emit. */
  predicate IsEncoderOutput(c: char)
  {
    IsUnreserved(c) || c == '%' || IsUpperHex(c)
  }

  type Byte = b: int | 0 <= b < 256

  const HexDigits: string := "0123456789ABCDEF"

  function HexChar(n: nat): (c: char)
    requires n < 16
    ensures IsUpperHex(c)
  {
    HexDigits[n]
  }

  /** The value of a hexadecimal digit of either case, as the decoder reads it. */
  function HexValue(c: char): Option<nat>
  {
    if '0' <= c <= '9' then Some(c as int - '0' as int)
    else if 'A' <= c <= 'F' then Some(c as int - 'A' as int + 10)
    else if 'a' <= c <= 'f' then Some(c as int - 'a' as int + 10)
    else None
  }

  lemma HexValueOfHexChar(n: nat)
    requires n < 16
    ensures HexValue(HexChar(n)) == Some(n)
  {
    assert HexDigits[n] as int == if n < 10 then '0' as int + n else 'A' as int + n - 10;
  }

  /**
   * The UTF-8 octets of a code point (Table 21 of section 15.1.3): one octet
   * below 0x80, two below 0x800, three below 0x10000, four otherwise; leading
   * octet 0xxxxxxx, 110xxxxx, 1110xxxx or 11110xxx, continuation octets 10xxxxxx.
   */
  function Utf8(c: char): (bytes: seq<Byte>)
    ensures 1 <= |bytes| <= 4
  {
    var v := c as int;
    if v < 0x80 then [v]
    else if v < 0x800 then [0xC0 + v / 64, 0x80 + v % 64]
    else if v < 0x10000 then [0xE0 + v / 4096, 0x80 + v / 64 % 64, 0x80 + v % 64]
    else [0xF0 + v / 262144, 0x80 + v / 4096 % 64, 0x80 + v / 64 % 64, 0x80 + v % 64]
  }

  /** One octet as a `%XY` triplet with upper-case hexadecimal digits. */
  function Escape(b: Byte): (r: string)
    ensures |r| == 3 && r[0] == '%' && IsUpperHex(r[1]) && IsUpperHex(r[2])
  {
    ['%', HexChar(b / 16), HexChar(b % 16)]
  }

  function EscapeAll(bytes: seq<Byte>): (r: string)
    ensures |r| == 3 * |bytes|
  {
    if bytes == [] then [] else Escape(bytes[0]) + EscapeAll(bytes[1..])
  }

  /** One character encoded: itself when unreserved, else its UTF-8 octets escaped. */
  function EncodeChar(c: char): string
  {
    if IsUnreserved(c) then [c] else EscapeAll(Utf8(c))
  }

  /**
   * Text made only of unreserved characters and `%XY` triplets of upper-case
   * hexadecimal digits: the shape of everything encodeURIComponent returns.
   */
  predicate IsEscapedText(t: string)
    decreases |t|
  {
    if t == [] then true
    else if IsUnreserved(t[0]) then IsEscapedText(t[1..])
    else |t| >= 3 && t[0] == '%' && IsUpperHex(t[1]) && IsUpperHex(t[2]) && IsEscapedText(t[3..])
  }

  lemma {:induction false} EscapedTextConcat(a: string, b: string)
    requires IsEscapedText(a) && IsEscapedText(b)
    ensures IsEscapedText(a + b)
    decreases |a|
  {
    if a == [] {
      assert a + b == b;
    } else if IsUnreserved(a[0]) {
      assert (a + b)[1..] == a[1..] + b;
      EscapedTextConcat(a[1..], b);
    } else {
      assert (a + b)[3..] == a[3..] + b;
      EscapedTextConcat(a[3..], b);
    }
  }

  lemma {:induction false} EscapeAllIsEscapedText(bytes: seq<Byte>)
    ensures IsEscapedText(EscapeAll(bytes))
  {
    if bytes != [] {
      var e := Escape(bytes[0]);
      assert IsEscapedText(e) by {
        assert e[3..] == [];
      }
      EscapeAllIsEscapedText(bytes[1..]);
      EscapedTextConcat(e, EscapeAll(bytes[1..]));
    }
  }

  /** encodeURIComponent(s). */
  function EncodeURIComponent(s: string): string
  {
    if s == [] then [] else EncodeChar(s[0]) + EncodeURIComponent(s[1..])
  }

  /** The output is escaped text, and no shorter than the input. */
  lemma {:induction false} EncodeIsEscapedText(s: string)
    ensures IsEscapedText(EncodeURIComponent(s))
    ensures |EncodeURIComponent(s)| >= |s|
  {
    if s != [] {
      var head := EncodeChar(s[0]);
      assert IsEscapedText(head) && |head| >= 1 by {
        if !IsUnreserved(s[0]) { EscapeAllIsEscapedText(Utf8(s[0])); }
      }
      EncodeIsEscapedText(s[1..]);
      EscapedTextConcat(head, EncodeURIComponent(s[1..]));
    }
  }

  lemma {:induction false} EncodeConcat(a: string, b: string)
    ensures EncodeURIComponent(a + b) == EncodeURIComponent(a) + EncodeURIComponent(b)
  {
    if a == [] {
      assert a + b == b;
    } else {
      assert (a + b)[1..] == a[1..] + b;
      EncodeConcat(a[1..], b);
    }
  }

  /** Every character of escaped text is unreserved, `%` or an upper-case hex digit. */
  lemma {:induction false} EscapedTextAlphabet(t: string)
    requires IsEscapedText(t)
    ensures forall i :: 0 <= i < |t| ==> IsEncoderOutput(t[i])
    decreases |t|
  {
    if t != [] {
      if IsUnreserved(t[0]) {
        EscapedTextAlphabet(t[1..]);
        assert forall i :: 1 <= i < |t| ==> t[i] == t[1..][i - 1];
      } else {
        EscapedTextAlphabet(t[3..]);
        assert forall i :: 3 <= i < |t| ==> t[i] == t[3..][i - 3];
      }
    }
  }

  /**
   * The encoder emits only unreserved characters, `%` and upper-case hex
   * digits; in particular never a space, `&`, `=`, `?`, `#` or `+`, so its
   * output can sit inside a URI query component.
   */
  lemma EncodeAlphabet(s: string)
    ensures forall i :: 0 <= i < |EncodeURIComponent(s)| ==> IsEncoderOutput(EncodeURIComponent(s)[i])
    ensures ' ' !in EncodeURIComponent(s) && '&' !in EncodeURIComponent(s)
    ensures '=' !in EncodeURIComponent(s) && '?' !in EncodeURIComponent(s)
    ensures '#' !in EncodeURIComponent(s) && '+' !in EncodeURIComponent(s)
  {
    var t := EncodeURIComponent(s);
    EncodeIsEscapedText(s);
    EscapedTextAlphabet(t);
    forall c | c in t
      ensures c != ' ' && c != '&' && c != '=' && c != '?' && c != '#' && c != '+'
    {
      var i :| 0 <= i < |t| && t[i] == c;
      assert IsEncoderOutput(c);
    }
  }

  /**
   * The encoder is the identity exactly on strings of unreserved characters;
   * any other character makes the output strictly longer.
   */
  lemma {:induction false} EncodeIdentityIff(s: string)
    ensures EncodeURIComponent(s) == s <==> forall i :: 0 <= i < |s| ==> IsUnreserved(s[i])
    ensures (exists i :: 0 <= i < |s| && !IsUnreserved(s[i])) ==> |EncodeURIComponent(s)| > |s|
  {
    if s != [] {
      EncodeIsEscapedText(s[1..]);
      EncodeIdentityIff(s[1..]);
      assert forall i :: 1 <= i < |s| ==> s[i] == s[1..][i - 1];
      if !IsUnreserved(s[0]) {
        assert |EncodeChar(s[0])| >= 3;
      } else if exists i :: 0 <= i < |s| && !IsUnreserved(s[i]) {
        var i :| 0 <= i < |s| && !IsUnreserved(s[i]);
        assert !IsUnreserved(s[1..][i - 1]);
      }
    }
  }

  // ---- decodeURIComponent ----

  /** Reads `k` consecutive `%XY` triplets from the front of `t` as octets. */
  function ReadOctets(t: string, k: nat): (r: Option<seq<Byte>>)
    ensures r.Some? ==> |r.value| == k && 3 * k <= |t|
  {
    if k == 0 then Some([])
    else if |t| < 3 || t[0] != '%' then None
    else match (HexValue(t[1]), HexValue(t[2]))
      case (Some(h), Some(l)) =>
        if h < 16 && l < 16 then
          match ReadOctets(t[3..], k - 1)
          case None => None
          case Some(rest) => Some([h * 16 + l] + rest)
        else None
      case _ => None
  }

  /** The number of octets announced by a leading octet, or 0 if it cannot lead. */
  function SequenceLength(b: Byte): nat
  {
    if b < 0x80 then 1
    else if 0xC0 <= b < 0xE0 then 2
    else if 0xE0 <= b < 0xF0 then 3
    else if 0xF0 <= b < 0xF8 then 4
    else 0
  }

  predicate IsContinuation(b: Byte)
  {
    0x80 <= b < 0xC0
  }

  /** The code point a well-formed UTF-8 sequence encodes; overlong forms and surrogates are refused. */
  function Utf8Decode(bytes: seq<Byte>): Option<char>
  {
    if |bytes| == 1 then
      if bytes[0] < 0x80 then Some(bytes[0] as char) else None
    else if |bytes| == 2 then
      if 0xC0 <= bytes[0] < 0xE0 && IsContinuation(bytes[1]) then
        var v: int := (bytes[0] as int - 0xC0) * 64 + (bytes[1] as int - 0x80);
        if 0x80 <= v then Some(v as char) else None
      else None
    else if |bytes| == 3 then
      if 0xE0 <= bytes[0] < 0xF0 && IsContinuation(bytes[1]) && IsContinuation(bytes[2]) then
        var v: int := ((bytes[0] as int - 0xE0) * 64 + (bytes[1] as int - 0x80)) * 64
                      + (bytes[2] as int - 0x80);
        if 0x800 <= v < 0xD800 || 0xE000 <= v then Some(v as char) else None
      else None
    else if |bytes| == 4 then
      if 0xF0 <= bytes[0] < 0xF8 && IsContinuation(bytes[1]) && IsContinuation(bytes[2])
         && IsContinuation(bytes[3]) then
        var v: int := (((bytes[0] as int - 0xF0) * 64 + (bytes[1] as int - 0x80)) * 64
                       + (bytes[2] as int - 0x80)) * 64
                      + (bytes[3] as int - 0x80);
        if 0x10000 <= v < 0x110000 then Some(v as char) else None
      else None
    else None
  }

  function Prepend(c: char, r: Option<string>): Option<string>
  {
    match r
    case None => None
    case Some(t) => Some([c] + t)
  }

  /**
   * decodeURIComponent(t): characters other than `%` stand for themselves;
   * a `%XY` triplet starts a UTF-8 sequence of escaped octets; a malformed
   * escape or sequence is the URIError, here `None`.
   */
  function DecodeURIComponent(t: string): Option<string>
    decreases |t|
  {
    if t == [] then Some([])
    else if t[0] != '%' then Prepend(t[0], DecodeURIComponent(t[1..]))
    else match ReadOctets(t, 1)
      case None => None
      case Some(first) =>
        var n := SequenceLength(first[0]);
        if n == 0 then None
        else match ReadOctets(t, n)
          case None => None
          case Some(octets) =>
            match Utf8Decode(octets)
            case None => None
            case Some(c) => Prepend(c, DecodeURIComponent(t[3 * n..]))
  }

  // ---- the round trip ----

  lemma {:induction false} ReadEscaped(bytes: seq<Byte>, rest: string, k: nat)
    requires k <= |bytes|
    ensures ReadOctets(EscapeAll(bytes) + rest, k) == Some(bytes[..k])
  {
    if k > 0 {
      var t := EscapeAll(bytes) + rest;
      var b := bytes[0];
      HexValueOfHexChar(b / 16);
      HexValueOfHexChar(b % 16);
      assert t[..3] == Escape(b);
      assert t[3..] == EscapeAll(bytes[1..]) + rest;
      ReadEscaped(bytes[1..], rest, k - 1);
      assert bytes[..k] == [b] + bytes[1..][..k - 1];
    }
  }

  lemma DivMod64(v: int)
    requires v >= 0
    ensures v == v / 64 * 64 + v % 64
    ensures v / 4096 == v / 64 / 64 && v / 262144 == v / 4096 / 64
  {
  }

  lemma Utf8RoundTrip(c: char)
    ensures Utf8Decode(Utf8(c)) == Some(c)
    ensures SequenceLength(Utf8(c)[0]) == |Utf8(c)|
  {
    var v := c as int;
    DivMod64(v);
    DivMod64(v / 64);
    DivMod64(v / 4096);
  }

  lemma DecodeEncodedChar(c: char, rest: string)
    ensures DecodeURIComponent(EncodeChar(c) + rest) == Prepend(c, DecodeURIComponent(rest))
  {
    var t := EncodeChar(c) + rest;
    if IsUnreserved(c) {
      assert t[0] == c && t[1..] == rest;
    } else {
      var bytes := Utf8(c);
      ReadEscaped(bytes, rest, 1);
      ReadEscaped(bytes, rest, |bytes|);
      assert bytes[..|bytes|] == bytes;
      Utf8RoundTrip(c);
      assert t[0] == '%';
      assert t[3 * |bytes|..] == rest;
    }
  }

  /** decodeURIComponent(encodeURIComponent(s)) == s. */
  lemma {:induction false} DecodeEncode(s: string)
    ensures DecodeURIComponent(EncodeURIComponent(s)) == Some(s)
  {
    if s != [] {
      DecodeEncodedChar(s[0], EncodeURIComponent(s[1..]));
      DecodeEncode(s[1..]);
      assert [s[0]] + s[1..] == s;
    }
  }
}
