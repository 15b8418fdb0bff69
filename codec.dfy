/**
 * Byte-level codecs under the event IDs: UTF-8 (Encoding.UTF8), standard Base64
 * (section 4 of RFC 4648, Convert.ToBase64String / FromBase64String) and the
 * unpadded base64url alphabet (section 5 of RFC 4648, Base64UrlEncoder).
 */
module Codec {
  import opened Common
  import opened Text

  type Byte = b: int | 0 <= b < 256

  // ---------------------------------------------------------------- UTF-8

  predicate IsContinuation(b: Byte)
  {
    0x80 <= b <= 0xBF
  }

  /** The UTF-8 form of one Unicode scalar value: 1 to 4 bytes. */
  function EncodeScalar(c: char): (r: seq<Byte>)
    ensures 1 <= |r| <= 4
  {
    var n := c as int;
    if n < 0x80 then [n]
    else if n < 0x800 then [0xC0 + n / 64, 0x80 + n % 64]
    else if n < 0x10000 then [0xE0 + n / 4096, 0x80 + n / 64 % 64, 0x80 + n % 64]
    else [0xF0 + n / 262144, 0x80 + n / 4096 % 64, 0x80 + n / 64 % 64, 0x80 + n % 64]
  }

  /** Encoding.UTF8.GetBytes. */
  function Utf8Encode(s: string): seq<Byte>
  {
    if |s| == 0 then [] else EncodeScalar(s[0]) + Utf8Encode(s[1..])
  }

  const ReplacementChar: char := '\U{FFFD}'

  /**
   * For a lead byte, the length of the sequence it starts and the range its second
   * byte must lie in (the well-formed byte sequences of section 3.9 of the Unicode
   * Standard); length 0 for a byte that cannot start a multi-byte sequence.
   */
  function LeadInfo(b: Byte): (int, Byte, Byte)
  {
    if 0xC2 <= b <= 0xDF then (2, 0x80, 0xBF)
    else if b == 0xE0 then (3, 0xA0, 0xBF)
    else if 0xE1 <= b <= 0xEC || 0xEE <= b <= 0xEF then (3, 0x80, 0xBF)
    else if b == 0xED then (3, 0x80, 0x9F)
    else if b == 0xF0 then (4, 0x90, 0xBF)
    else if 0xF1 <= b <= 0xF3 then (4, 0x80, 0xBF)
    else if b == 0xF4 then (4, 0x80, 0x8F)
    else (0, 0, 0)
  }

  /**
   * Decodes the character at the front of `b` and says how many bytes it used.
   * An ill-formed prefix becomes one U+FFFD per maximal subpart of a well-formed
   * sequence, the replacement practice the Unicode Standard recommends.
   */
  function DecodeOne(b: seq<Byte>): (r: (char, nat))
    requires |b| > 0
    ensures 1 <= r.1 <= |b|
  {
    var x0: int := b[0];
    if x0 < 0x80 then (x0 as char, 1)
    else
      var (len, lo, hi) := LeadInfo(b[0]);
      if len == 0 || |b| < 2 || !(lo <= b[1] <= hi) then (ReplacementChar, 1)
      else
        var x1: int := b[1] - 0x80;
        if len == 2 then (((x0 - 0xC0) * 64 + x1) as char, 2)
        else if |b| < 3 || !IsContinuation(b[2]) then (ReplacementChar, 2)
        else
          var x2: int := b[2] - 0x80;
          if len == 3 then ((((x0 - 0xE0) * 64 + x1) * 64 + x2) as char, 3)
          else if |b| < 4 || !IsContinuation(b[3]) then (ReplacementChar, 3)
          else
            var x3: int := b[3] - 0x80;
            (((((x0 - 0xF0) * 64 + x1) * 64 + x2) * 64 + x3) as char, 4)
  }

  /** Encoding.UTF8.GetString: total, ill-formed input is replaced rather than rejected. */
  function Utf8Decode(b: seq<Byte>): string
    decreases |b|
  {
    if |b| == 0 then "" else var (c, k) := DecodeOne(b); [c] + Utf8Decode(b[k..])
  }

  /** The digits of a code point in base 64, as the UTF-8 bytes carry them. */
  lemma Base64Digits(n: nat)
    ensures n / 4096 == n / 64 / 64 && n / 262144 == n / 64 / 64 / 64
    ensures n / 64 * 64 + n % 64 == n
    ensures (n / 64 / 64 * 64 + n / 64 % 64) * 64 + n % 64 == n
    ensures ((n / 64 / 64 / 64 * 64 + n / 64 / 64 % 64) * 64 + n / 64 % 64) * 64 + n % 64 == n
  {
  }

  lemma DecodeEncodedScalar(c: char, rest: seq<Byte>)
    ensures DecodeOne(EncodeScalar(c) + rest) == (c, |EncodeScalar(c)|)
  {
    var n := c as int;
    var b := EncodeScalar(c) + rest;
    Base64Digits(n);
    if n < 0x80 {
    } else if n < 0x800 {
      DecodeTwo(n, b);
    } else if n < 0x10000 {
      DecodeThree(n, b);
    } else {
      DecodeFour(n, b);
    }
  }

  lemma DecodeTwo(n: int, b: seq<Byte>)
    requires 0x80 <= n < 0x800 && |b| >= 2 && b[0] == 0xC0 + n / 64 && b[1] == 0x80 + n % 64
    ensures DecodeOne(b) == (n as char, 2)
  {
    Base64Digits(n);
    assert 0xC2 <= b[0] <= 0xDF;
    assert LeadInfo(b[0]) == (2, 0x80, 0xBF);
  }

  lemma DecodeThree(n: int, b: seq<Byte>)
    requires 0x800 <= n < 0x10000 && !(0xD800 <= n < 0xE000) && |b| >= 3
    requires b[0] == 0xE0 + n / 4096 && b[1] == 0x80 + n / 64 % 64 && b[2] == 0x80 + n % 64
    ensures DecodeOne(b) == (n as char, 3)
  {
    Base64Digits(n);
    var (len, lo, hi) := LeadInfo(b[0]);
    assert 0xE0 <= b[0] <= 0xEF;
    if b[0] == 0xE0 {
      assert 32 <= n / 64 < 64;
    } else if b[0] == 0xED {
      assert 0xD000 <= n < 0xD800;
      assert 0x340 <= n / 64 < 0x360;
    }
    assert len == 3 && lo <= b[1] <= hi && IsContinuation(b[2]);
  }

  lemma DecodeFour(n: int, b: seq<Byte>)
    requires 0x10000 <= n < 0x110000 && |b| >= 4
    requires b[0] == 0xF0 + n / 262144 && b[1] == 0x80 + n / 4096 % 64 && b[2] == 0x80 + n / 64 % 64 && b[3] == 0x80 + n % 64
    ensures DecodeOne(b) == (n as char, 4)
  {
    Base64Digits(n);
    var (len, lo, hi) := LeadInfo(b[0]);
    assert 0xF0 <= b[0] <= 0xF4;
    if b[0] == 0xF0 {
      assert 16 <= n / 4096 < 64;
    } else if b[0] == 0xF4 {
      assert 0x100000 <= n < 0x110000;
      assert 0x100 <= n / 4096 < 0x110;
    }
    assert len == 4 && lo <= b[1] <= hi && IsContinuation(b[2]) && IsContinuation(b[3]);
  }

  /** Decoding the UTF-8 form of a string gives the string back. */
  lemma {:induction false} Utf8RoundTrip(s: string)
    ensures Utf8Decode(Utf8Encode(s)) == s
  {
    if |s| > 0 {
      var e := EncodeScalar(s[0]);
      var rest := Utf8Encode(s[1..]);
      DecodeEncodedScalar(s[0], rest);
      assert (e + rest)[|e|..] == rest;
      Utf8RoundTrip(s[1..]);
      assert [s[0]] + s[1..] == s;
    }
  }

  lemma {:induction false} Utf8EncodeAppend(a: string, b: string)
    ensures Utf8Encode(a + b) == Utf8Encode(a) + Utf8Encode(b)
  {
    if |a| > 0 {
      assert (a + b)[0] == a[0] && (a + b)[1..] == a[1..] + b;
      Utf8EncodeAppend(a[1..], b);
    } else {
      assert a + b == b;
    }
  }

  // --------------------------------------------------------------- Base64

  const PadChar: char := '='

  /** The character for a 6-bit value in the standard alphabet (Table 1 of RFC 4648). */
  function StdChar(v: nat): (c: char)
    requires v < 64
    ensures c != PadChar && c != '-' && c != '_'
  {
    if v < 26 then ('A' as int + v) as char
    else if v < 52 then ('a' as int + v - 26) as char
    else if v < 62 then ('0' as int + v - 52) as char
    else if v == 62 then '+'
    else '/'
  }

  /** The 6-bit value of a character of the standard alphabet; None for any other character. */
  function StdValue(c: char): (r: Option<nat>)
    ensures r.Some? ==> r.value < 64 && StdChar(r.value) == c
  {
    if 'A' <= c <= 'Z' then Some(c as int - 'A' as int)
    else if 'a' <= c <= 'z' then Some(c as int - 'a' as int + 26)
    else if '0' <= c <= '9' then Some(c as int - '0' as int + 52)
    else if c == '+' then Some(62)
    else if c == '/' then Some(63)
    else None
  }

  lemma StdValueOfChar(v: nat)
    requires v < 64
    ensures StdValue(StdChar(v)) == Some(v)
  {
  }

  predicate InStdAlphabet(s: string)
  {
    forall i :: 0 <= i < |s| ==> StdValue(s[i]).Some?
  }

  /** Three bytes as four 6-bit digits, most significant first. */
  function Quad(b0: Byte, b1: Byte, b2: Byte): (r: string)
    ensures |r| == 4 && InStdAlphabet(r)
  {
    var r := [StdChar(b0 / 4), StdChar(b0 % 4 * 16 + b1 / 16), StdChar(b1 % 16 * 4 + b2 / 64), StdChar(b2 % 64)];
    StdValueOfChar(b0 / 4);
    StdValueOfChar(b0 % 4 * 16 + b1 / 16);
    StdValueOfChar(b1 % 16 * 4 + b2 / 64);
    StdValueOfChar(b2 % 64);
    r
  }

  /** The unpadded encoding: 4 characters per 3 bytes, 2 or 3 characters for a final 1 or 2 bytes. */
  function EncodeBody(b: seq<Byte>): (r: string)
    ensures InStdAlphabet(r)
    ensures |r| == 4 * (|b| / 3) + (if |b| % 3 == 0 then 0 else |b| % 3 + 1)
    decreases |b|
  {
    if |b| == 0 then ""
    else if |b| == 1 then Quad(b[0], 0, 0)[..2]
    else if |b| == 2 then Quad(b[0], b[1], 0)[..3]
    else
      var head, tail := Quad(b[0], b[1], b[2]), EncodeBody(b[3..]);
      assert forall i :: 0 <= i < |head + tail| ==> (head + tail)[i] == if i < 4 then head[i] else tail[i - 4];
      head + tail
  }

  function Padding(n: nat): string
  {
    if n % 3 == 1 then "==" else if n % 3 == 2 then "=" else ""
  }

  /** Convert.ToBase64String: the body padded with '=' to a multiple of 4 characters. */
  function Base64Encode(b: seq<Byte>): (r: string)
    ensures |r| % 4 == 0
  {
    PaddedLength(|b|);
    EncodeBody(b) + Padding(|b|)
  }

  /** The body and its padding always make whole groups of four. */
  lemma PaddedLength(n: nat)
    ensures (4 * (n / 3) + (if n % 3 == 0 then 0 else n % 3 + 1) + |Padding(n)|) % 4 == 0
  {
    if n % 3 == 0 {
      QuadMod(n / 3, 0);
    } else {
      assert (if n % 3 == 0 then 0 else n % 3 + 1) + |Padding(n)| == 4;
      QuadMod(n / 3 + 1, 0);
    }
  }

  const InvalidLengthText := "Invalid length for a Base-64 char array or string."
  const InvalidCharacterText := "The input is not a valid Base-64 string as it contains a non-base 64 character, more than two padding characters, or an illegal character among the padding characters. "

  /** Decodes one group of four characters; padding is accepted only in the final group. */
  function DecodeGroup(q: string, last: bool): Option<seq<Byte>>
    requires |q| == 4
  {
    var v0, v1, v2, v3 := StdValue(q[0]), StdValue(q[1]), StdValue(q[2]), StdValue(q[3]);
    if v0.None? || v1.None? then None
    else
      var x0 := v0.value * 4 + v1.value / 16;
      if v2.Some? && v3.Some? then
        Some([x0, v1.value % 16 * 16 + v2.value / 4, v2.value % 4 * 64 + v3.value])
      else if last && v2.Some? && q[3] == PadChar then
        Some([x0, v1.value % 16 * 16 + v2.value / 4])
      else if last && q[2] == PadChar && q[3] == PadChar then
        Some([x0])
      else None
  }

  function DecodeGroups(s: string): Option<seq<Byte>>
    requires |s| % 4 == 0
    decreases |s|
  {
    if |s| == 0 then Some([])
    else
      match DecodeGroup(s[..4], |s| == 4)
      case None => None
      case Some(g) =>
        if |s| == 4 then Some(g)
        else
          match DecodeGroups(s[4..])
          case None => None
          case Some(rest) => Some(g + rest)
  }

  /** The characters Convert.FromBase64String skips wherever they occur: space, tab, CR and LF. */
  predicate IsBase64WhiteSpace(c: char)
  {
    c == ' ' || c == '\t' || c == '\r' || c == '\n'
  }

  /** The input with those characters removed, the others kept in order. */
  function WithoutWhiteSpace(s: string): (r: string)
    ensures |r| <= |s|
    ensures forall i :: 0 <= i < |r| ==> !IsBase64WhiteSpace(r[i])
  {
    if |s| == 0 then ""
    else WithoutWhiteSpace(s[..|s| - 1]) + (if IsBase64WhiteSpace(s[|s| - 1]) then "" else [s[|s| - 1]])
  }

  /**
   * Convert.FromBase64String: white space is skipped, and a FormatException
   * comes back for a bad length or a character outside the alphabet.
   */
  function Base64Decode(s: string): (r: Result<seq<Byte>>)
    ensures r.Err? ==> r.error.Format?
    ensures r.Ok? ==> 4 * |r.value| <= 3 * |s|
  {
    var t := WithoutWhiteSpace(s);
    if |t| % 4 != 0 then Err(Format(InvalidLengthText))
    else
      DecodeGroupsLength(t);
      match DecodeGroups(t)
      case None => Err(Format(InvalidCharacterText))
      case Some(b) => Ok(b)
  }

  /** At most three bytes come out of every four characters. */
  lemma {:induction false} DecodeGroupsLength(t: string)
    requires |t| % 4 == 0
    ensures DecodeGroups(t).Some? ==> 4 * |DecodeGroups(t).value| <= 3 * |t|
    decreases |t|
  {
    if |t| > 4 {
      DecodeGroupsLength(t[4..]);
    }
  }

  /** Removing white space distributes over concatenation. */
  lemma {:induction false} WithoutWhiteSpaceAppend(a: string, b: string)
    ensures WithoutWhiteSpace(a + b) == WithoutWhiteSpace(a) + WithoutWhiteSpace(b)
    decreases |b|
  {
    if |b| == 0 {
      assert a + b == a;
    } else {
      var c := b[|b| - 1];
      assert (a + b)[..|a + b| - 1] == a + b[..|b| - 1];
      WithoutWhiteSpaceAppend(a, b[..|b| - 1]);
    }
  }

  predicate NoWhiteSpace(s: string)
  {
    forall i :: 0 <= i < |s| ==> !IsBase64WhiteSpace(s[i])
  }

  /** A string without white space is kept as it is. */
  lemma {:induction false} WithoutWhiteSpaceNone(s: string)
    requires NoWhiteSpace(s)
    ensures WithoutWhiteSpace(s) == s
  {
    if |s| > 0 {
      WithoutWhiteSpaceNone(s[..|s| - 1]);
    }
  }

  /** A string of white space alone disappears. */
  lemma {:induction false} WithoutWhiteSpaceAll(w: string)
    requires forall i :: 0 <= i < |w| ==> IsBase64WhiteSpace(w[i])
    ensures WithoutWhiteSpace(w) == ""
  {
    if |w| > 0 {
      WithoutWhiteSpaceAll(w[..|w| - 1]);
    }
  }

  lemma QuadDecodes(b0: Byte, b1: Byte, b2: Byte, last: bool)
    ensures DecodeGroup(Quad(b0, b1, b2), last) == Some([b0, b1, b2])
  {
    var c1 := b0 % 4 * 16 + b1 / 16;
    assert c1 / 16 == b0 % 4 && c1 % 16 == b1 / 16;
    var c2 := b1 % 16 * 4 + b2 / 64;
    assert c2 / 4 == b1 % 16 && c2 % 4 == b2 / 64;
    StdValueOfChar(b0 / 4);
    StdValueOfChar(c1);
    StdValueOfChar(c2);
    StdValueOfChar(b2 % 64);
  }

  lemma OneByteDecodes(b0: Byte)
    ensures DecodeGroup(Quad(b0, 0, 0)[..2] + "==", true) == Some([b0])
  {
    var c1 := b0 % 4 * 16;
    assert c1 / 16 == b0 % 4;
    StdValueOfChar(b0 / 4);
    StdValueOfChar(c1);
  }

  lemma TwoBytesDecode(b0: Byte, b1: Byte)
    ensures DecodeGroup(Quad(b0, b1, 0)[..3] + "=", true) == Some([b0, b1])
  {
    var c1 := b0 % 4 * 16 + b1 / 16;
    assert c1 / 16 == b0 % 4 && c1 % 16 == b1 / 16;
    var c2 := b1 % 16 * 4;
    assert c2 / 4 == b1 % 16;
    StdValueOfChar(b0 / 4);
    StdValueOfChar(c1);
    StdValueOfChar(c2);
  }

  lemma DecodeEncodedShort(b: seq<Byte>)
    requires 1 <= |b| <= 2
    ensures DecodeGroups(Base64Encode(b)) == Some(b)
  {
    var e := Base64Encode(b);
    assert e[..4] == e;
    if |b| == 1 {
      OneByteDecodes(b[0]);
      assert e == Quad(b[0], 0, 0)[..2] + "==";
      assert b == [b[0]];
    } else {
      TwoBytesDecode(b[0], b[1]);
      assert e == Quad(b[0], b[1], 0)[..3] + "=";
      assert b == [b[0], b[1]];
    }
  }

  lemma EncodeSplits(b: seq<Byte>)
    requires |b| >= 3
    ensures Base64Encode(b) == Quad(b[0], b[1], b[2]) + Base64Encode(b[3..])
  {
    assert Padding(|b[3..]|) == Padding(|b|);
  }

  lemma {:induction false} DecodeEncoded(b: seq<Byte>)
    ensures DecodeGroups(Base64Encode(b)) == Some(b)
    decreases |b|
  {
    if 1 <= |b| <= 2 {
      DecodeEncodedShort(b);
    } else if |b| >= 3 {
      var e := Base64Encode(b);
      var g := Quad(b[0], b[1], b[2]);
      var tail := Base64Encode(b[3..]);
      EncodeSplits(b);
      assert e[..4] == g && e[4..] == tail;
      QuadDecodes(b[0], b[1], b[2], |e| == 4);
      assert [b[0], b[1], b[2]] + b[3..] == b;
      if |e| == 4 {
        assert |tail| == 0 && |b[3..]| == 0;
        assert DecodeGroups(e) == Some([b[0], b[1], b[2]]);
        assert b == [b[0], b[1], b[2]];
      } else {
        DecodeEncoded(b[3..]);
        assert DecodeGroups(e) == Some([b[0], b[1], b[2]] + b[3..]);
      }
    }
  }

  /** An encoding holds no white space. */
  lemma EncodingHasNoWhiteSpace(b: seq<Byte>)
    ensures forall i :: 0 <= i < |Base64Encode(b)| ==> !IsBase64WhiteSpace(Base64Encode(b)[i])
  {
    var body := EncodeBody(b);
    forall i | 0 <= i < |Base64Encode(b)| ensures !IsBase64WhiteSpace(Base64Encode(b)[i]) {
      if i < |body| {
        assert StdValue(body[i]).Some?;
      } else {
        assert Base64Encode(b)[i] == Padding(|b|)[i - |body|];
      }
    }
  }

  /** Convert.FromBase64String(Convert.ToBase64String(b)) == b. */
  lemma Base64RoundTrip(b: seq<Byte>)
    ensures Base64Decode(Base64Encode(b)) == Ok(b)
  {
    EncodingHasNoWhiteSpace(b);
    WithoutWhiteSpaceNone(Base64Encode(b));
    DecodeEncoded(b);
  }

  /**
   * White space inserted anywhere in an encoding, such as a line break or a
   * trailing space, does not change what it decodes to.
   */
  lemma Base64SkipsWhiteSpace(b: seq<Byte>, i: nat, w: string)
    requires i <= |Base64Encode(b)| && forall j :: 0 <= j < |w| ==> IsBase64WhiteSpace(w[j])
    ensures Base64Decode(Base64Encode(b)[..i] + w + Base64Encode(b)[i..]) == Ok(b)
  {
    var e := Base64Encode(b);
    EncodingHasNoWhiteSpace(b);
    assert NoWhiteSpace(e[..i]) && NoWhiteSpace(e[i..]);
    WhiteSpaceInserted(e[..i], w, e[i..]);
    assert e[..i] + e[i..] == e;
    WithoutWhiteSpaceNone(e);
    SameDecode(e[..i] + w + e[i..], e);
    Base64RoundTrip(b);
  }

  /** White space put between two strings without any is removed again. */
  lemma WhiteSpaceInserted(x: string, w: string, y: string)
    requires NoWhiteSpace(x) && NoWhiteSpace(y)
    requires forall j :: 0 <= j < |w| ==> IsBase64WhiteSpace(w[j])
    ensures WithoutWhiteSpace(x + w + y) == x + y
  {
    WhiteSpaceDropped(x, w, y);
    WithoutWhiteSpaceNone(x);
    WithoutWhiteSpaceNone(y);
  }

  lemma WhiteSpaceDropped(x: string, w: string, y: string)
    requires forall j :: 0 <= j < |w| ==> IsBase64WhiteSpace(w[j])
    ensures WithoutWhiteSpace(x + w + y) == WithoutWhiteSpace(x) + WithoutWhiteSpace(y)
  {
    var xw := x + w;
    WithoutWhiteSpaceAppend(xw, y);
    WithoutWhiteSpaceAppend(x, w);
    WithoutWhiteSpaceAll(w);
    var wx := WithoutWhiteSpace(x);
    assert wx + [] == wx;
  }

  lemma SameDecode(s: string, t: string)
    requires WithoutWhiteSpace(s) == WithoutWhiteSpace(t)
    ensures Base64Decode(s) == Base64Decode(t)
  {
  }

  // ------------------------------------------------------------ base64url

  /** Base64UrlEncoder.Encode(string): UTF-8, then Base64 cut at the first '=' with '+' -> '-' and '/' -> '_'. */
  function Base64UrlEncode(s: string): string
  {
    var standard := Base64Encode(Utf8Encode(s));
    var unpadded := Split(standard, PadChar)[0];
    ToUrlAlphabet(unpadded)
  }

  function UrlLengthText(s: string): string
  {
    "IDX10400: Unable to decode: '" + s + "' as Base64url encoded string."
  }

  /**
   * Base64UrlEncoder.Decode(string): '-' -> '+' and '_' -> '/', padding restored from the
   * length modulo 4 (a remainder of 1 is a FormatException), then Base64 and UTF-8.
   */
  function Base64UrlDecode(s: string): Result<string>
  {
    var t := FromUrlAlphabet(s);
    var m := |t| % 4;
    if m == 1 then Err(Format(UrlLengthText(s)))
    else
      var padded := t + (if m == 2 then "==" else if m == 3 then "=" else "");
      match Base64Decode(padded)
      case Err(e) => Err(e)
      case Ok(b) => Ok(Utf8Decode(b))
  }

  lemma CutAtPadding(b: seq<Byte>)
    ensures Split(Base64Encode(b), PadChar)[0] == EncodeBody(b)
  {
    var body := EncodeBody(b);
    assert PadChar !in body by {
      forall i | 0 <= i < |body| ensures body[i] != PadChar {
        assert StdValue(body[i]).Some?;
      }
    }
    if Padding(|b|) == "" {
      assert Base64Encode(b) == body;
      SplitWithout(body, PadChar);
    } else {
      var rest := Padding(|b|)[1..];
      assert Base64Encode(b) == body + [PadChar] + rest;
      SplitAfterFirst(body, PadChar, rest);
    }
  }

  function ToUrlAlphabet(s: string): string
  {
    ReplaceChar(ReplaceChar(s, '+', '-'), '/', '_')
  }

  function FromUrlAlphabet(s: string): string
  {
    ReplaceChar(ReplaceChar(s, '-', '+'), '_', '/')
  }

  /** On the standard alphabet the two character translations undo each other. */
  lemma UrlAlphabetInverse(body: string)
    requires InStdAlphabet(body)
    ensures FromUrlAlphabet(ToUrlAlphabet(body)) == body
  {
    var t := FromUrlAlphabet(ToUrlAlphabet(body));
    forall i | 0 <= i < |body| ensures t[i] == body[i] {
      assert StdValue(body[i]).Some?;
    }
  }

  lemma RestorePadding(b: seq<Byte>)
    ensures var t := EncodeBody(b);
      t + (if |t| % 4 == 2 then "==" else if |t| % 4 == 3 then "=" else "") == Base64Encode(b)
  {
    var t := EncodeBody(b);
    var extra := if |b| % 3 == 0 then 0 else |b| % 3 + 1;
    QuadMod(|b| / 3, extra);
    assert |t| % 4 == extra;
    assert Padding(|b|) == if extra == 2 then "==" else if extra == 3 then "=" else "";
  }

  lemma QuadMod(q: nat, extra: nat)
    requires extra < 4
    ensures (4 * q + extra) % 4 == extra
  {
  }

  /** Base64UrlEncoder.Decode(Base64UrlEncoder.Encode(s)) == s. */
  lemma Base64UrlRoundTrip(s: string)
    ensures Base64UrlDecode(Base64UrlEncode(s)) == Ok(s)
  {
    var b := Utf8Encode(s);
    var body := EncodeBody(b);
    CutAtPadding(b);
    assert Base64UrlEncode(s) == ToUrlAlphabet(body);
    UrlAlphabetInverse(body);
    RestorePadding(b);
    Base64RoundTrip(b);
    Utf8RoundTrip(s);
  }
}
