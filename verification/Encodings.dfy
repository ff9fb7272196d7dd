/** Byte encodings: base64 (section 4 of RFC 4648) and lower-case hexadecimal (section 8 of RFC 4648). */
module Encodings {
  import opened Options

  type Byte = b: int | 0 <= b < 256

  ghost predicate IsByteText(s: string) {
    forall i :: 0 <= i < |s| ==> s[i] as int < 256
  }

  // Go's []byte(s), for text whose characters are single bytes.
  function ToBytes(s: string): (bytes: seq<Byte>)
    requires IsByteText(s)
    ensures |bytes| == |s|
  {
    seq(|s|, i requires 0 <= i < |s| => s[i] as int)
  }

  // Go's string(bytes)
  function ToText(bytes: seq<Byte>): (s: string)
    ensures IsByteText(s) && |s| == |bytes|
  {
    seq(|bytes|, i requires 0 <= i < |bytes| => bytes[i] as char)
  }

  lemma TextOfBytes(s: string)
    requires IsByteText(s)
    ensures ToText(ToBytes(s)) == s
  {
  }

  // ----- base64 -----

  function Base64Char(v: int): (c: char)
    requires 0 <= v < 64
    ensures c != '=' && c as int < 128
  {
    if v < 26 then 'A' + v as char
    else if v < 52 then 'a' + (v - 26) as char
    else if v < 62 then '0' + (v - 52) as char
    else if v == 62 then '+'
    else '/'
  }

  function Base64Value(c: char): (v: Option<int>)
    ensures v.Some? ==> 0 <= v.value < 64
  {
    if 'A' <= c <= 'Z' then Some(c as int - 'A' as int)
    else if 'a' <= c <= 'z' then Some(c as int - 'a' as int + 26)
    else if '0' <= c <= '9' then Some(c as int - '0' as int + 52)
    else if c == '+' then Some(62)
    else if c == '/' then Some(63)
    else None
  }

  // Three bytes as four characters.
  function Base64Group(b0: Byte, b1: Byte, b2: Byte): (s: string)
    ensures |s| == 4
  {
    [Base64Char(b0 / 4), Base64Char(b0 % 4 * 16 + b1 / 16), Base64Char(b1 % 16 * 4 + b2 / 64), Base64Char(b2 % 64)]
  }

  // One or two last bytes, padded.
  function Base64Last(bytes: seq<Byte>): (s: string)
    requires |bytes| == 1 || |bytes| == 2
    ensures |s| == 4
  {
    if |bytes| == 1 then Base64Group(bytes[0], 0, 0)[..2] + "=="
    else Base64Group(bytes[0], bytes[1], 0)[..3] + "="
  }

  function Base64Encode(bytes: seq<Byte>): string {
    if bytes == [] then ""
    else if |bytes| < 3 then Base64Last(bytes)
    else Base64Group(bytes[0], bytes[1], bytes[2]) + Base64Encode(bytes[3..])
  }

  function Base64Decode(s: string): Option<seq<Byte>> {
    if s == "" then Some([])
    else if |s| < 4 then None
    else
      var (v0, v1, v2, v3) := (Base64Value(s[0]), Base64Value(s[1]), Base64Value(s[2]), Base64Value(s[3]));
      if v0.None? || v1.None? then None
      else
        var b0 := v0.value * 4 + v1.value / 16;
        if s[2..] == "==" then Some([b0])
        else if v2.None? then None
        else
          var b1 := v1.value % 16 * 16 + v2.value / 4;
          if s[3..] == "=" then Some([b0, b1])
          else if v3.None? then None
          else
            match Base64Decode(s[4..])
            case None => None
            case Some(rest) => Some([b0, b1, v2.value % 4 * 64 + v3.value] + rest)
  }

  lemma Base64ValueOfChar(v: int)
    requires 0 <= v < 64
    ensures Base64Value(Base64Char(v)) == Some(v)
  {
  }

  // Regrouping four six-bit values into bytes undoes the grouping of the bytes.
  lemma Regroup(b0: Byte, b1: Byte, b2: Byte)
    ensures b0 / 4 * 4 + (b0 % 4 * 16 + b1 / 16) / 16 == b0
    ensures (b0 % 4 * 16 + b1 / 16) % 16 * 16 + (b1 % 16 * 4 + b2 / 64) / 4 == b1
    ensures (b1 % 16 * 4 + b2 / 64) % 4 * 64 + b2 % 64 == b2
  {
  }

  lemma PaddingHasNoValue(c: char)
    requires Base64Value(c).Some?
    ensures c != '='
  {
  }

  lemma DecodeFour(s: string, bytes: seq<Byte>)
    requires |s| >= 4 && |bytes| == 3 && Base64Decode(s[4..]).Some?
    requires Base64Value(s[0]) == Some(bytes[0] / 4)
    requires Base64Value(s[1]) == Some(bytes[0] % 4 * 16 + bytes[1] / 16)
    requires Base64Value(s[2]) == Some(bytes[1] % 16 * 4 + bytes[2] / 64)
    requires Base64Value(s[3]) == Some(bytes[2] % 64)
    ensures Base64Decode(s) == Some(bytes + Base64Decode(s[4..]).value)
  {
    hide Base64Value;
    PaddingHasNoValue(s[2]);
    PaddingHasNoValue(s[3]);
    Regroup(bytes[0], bytes[1], bytes[2]);
    assert s[2..][0] != '=' && s[3..][0] != '=';
    assert bytes == [bytes[0], bytes[1], bytes[2]];
  }

  lemma GroupValues(b0: Byte, b1: Byte, b2: Byte)
    ensures var s := Base64Group(b0, b1, b2);
            && Base64Value(s[0]) == Some(b0 / 4) && Base64Value(s[1]) == Some(b0 % 4 * 16 + b1 / 16)
            && Base64Value(s[2]) == Some(b1 % 16 * 4 + b2 / 64) && Base64Value(s[3]) == Some(b2 % 64)
  {
    Base64ValueOfChar(b0 / 4);
    Base64ValueOfChar(b0 % 4 * 16 + b1 / 16);
    Base64ValueOfChar(b1 % 16 * 4 + b2 / 64);
    Base64ValueOfChar(b2 % 64);
  }

  lemma DecodeGroup(b0: Byte, b1: Byte, b2: Byte, tail: string)
    requires Base64Decode(tail).Some?
    ensures Base64Decode(Base64Group(b0, b1, b2) + tail) == Some([b0, b1, b2] + Base64Decode(tail).value)
  {
    hide Base64Value, Base64Decode;
    var s := Base64Group(b0, b1, b2) + tail;
    GroupValues(b0, b1, b2);
    assert s[4..] == tail;
    DecodeFour(s, [b0, b1, b2]);
  }

  lemma DecodeLast(bytes: seq<Byte>)
    requires |bytes| == 1 || |bytes| == 2
    ensures Base64Decode(Base64Last(bytes)) == Some(bytes)
  {
    var s := Base64Last(bytes);
    var b1 := if |bytes| == 1 then 0 else bytes[1];
    Base64ValueOfChar(bytes[0] / 4);
    Base64ValueOfChar(bytes[0] % 4 * 16 + b1 / 16);
    Base64ValueOfChar(b1 % 16 * 4);
    Regroup(bytes[0], b1, 0);
    if |bytes| == 1 {
      assert s[2..] == "==";
      assert bytes == [bytes[0]];
    } else {
      assert s[2] != '=' && s[2..][0] == s[2];
      assert s[3..] == "=";
      assert bytes == [bytes[0], bytes[1]];
    }
  }

  /** Decoding undoes encoding, for every byte sequence. */
  lemma {:induction false} Base64RoundTrip(bytes: seq<Byte>)
    ensures Base64Decode(Base64Encode(bytes)) == Some(bytes)
  {
    if 0 < |bytes| < 3 {
      DecodeLast(bytes);
    } else if bytes != [] {
      Base64RoundTrip(bytes[3..]);
      DecodeGroup(bytes[0], bytes[1], bytes[2], Base64Encode(bytes[3..]));
      assert bytes == [bytes[0], bytes[1], bytes[2]] + bytes[3..];
    }
  }

  lemma GroupShape(b0: Byte, b1: Byte, b2: Byte)
    ensures '=' !in Base64Group(b0, b1, b2) && IsByteText(Base64Group(b0, b1, b2))
  {
  }

  lemma LastShape(bytes: seq<Byte>)
    requires |bytes| == 1 || |bytes| == 2
    ensures '=' in Base64Last(bytes) && IsByteText(Base64Last(bytes))
  {
    hide Base64Group;
    GroupShape(bytes[0], 0, 0);
    if |bytes| == 2 { GroupShape(bytes[0], bytes[1], 0); }
    assert Base64Last(bytes)[3] == '=';
  }

  lemma EmptyIsByteText()
    ensures IsByteText("")
  {
  }

  lemma ThreeLess(n: nat)
    requires n >= 3
    ensures (n + 2) / 3 == 1 + (n - 3 + 2) / 3 && n % 3 == (n - 3) % 3
  {
  }

  lemma PaddingIn(s: string, t: string)
    requires IsByteText(s) && IsByteText(t)
    ensures ('=' in s + t <==> '=' in s || '=' in t) && IsByteText(s + t)
  {
  }

  /** Four characters for every three bytes begun, padded exactly when the last three are incomplete. */
  lemma {:induction false} Base64Shape(bytes: seq<Byte>)
    ensures |Base64Encode(bytes)| == (|bytes| + 2) / 3 * 4
    ensures '=' in Base64Encode(bytes) <==> |bytes| % 3 != 0
    ensures IsByteText(Base64Encode(bytes))
  {
    hide Base64Group, Base64Last, IsByteText;
    if bytes == [] {
      EmptyIsByteText();
    } else if |bytes| < 3 {
      LastShape(bytes);
    } else {
      Base64Shape(bytes[3..]);
      GroupShape(bytes[0], bytes[1], bytes[2]);
      ThreeLess(|bytes|);
      PaddingIn(Base64Group(bytes[0], bytes[1], bytes[2]), Base64Encode(bytes[3..]));
    }
  }

  /** Where the ranges of the alphabet of section 4 of RFC 4648 begin and end. */
  lemma AlphabetCorners()
    ensures Base64Char(0) == 'A' && Base64Char(25) == 'Z' && Base64Char(26) == 'a' && Base64Char(51) == 'z'
    ensures Base64Char(52) == '0' && Base64Char(61) == '9' && Base64Char(62) == '+' && Base64Char(63) == '/'
    ensures forall v :: 0 <= v < 63 && v != 25 && v != 51 && v < 61 ==> Base64Char(v + 1) as int == Base64Char(v) as int + 1
  {
  }

  /** Four characters carry the 24 bits of three bytes, most significant first. */
  lemma GroupIsBigEndian(b0: Byte, b1: Byte, b2: Byte)
    ensures exists v0, v1, v2, v3 ::
              && 0 <= v0 < 64 && 0 <= v1 < 64 && 0 <= v2 < 64 && 0 <= v3 < 64
              && Base64Group(b0, b1, b2) == [Base64Char(v0), Base64Char(v1), Base64Char(v2), Base64Char(v3)]
              && ((v0 * 64 + v1) * 64 + v2) * 64 + v3 == (b0 * 256 + b1) * 256 + b2
  {
    var (v0, v1, v2, v3) := (b0 / 4, b0 % 4 * 16 + b1 / 16, b1 % 16 * 4 + b2 / 64, b2 % 64);
    assert Base64Group(b0, b1, b2) == [Base64Char(v0), Base64Char(v1), Base64Char(v2), Base64Char(v3)];
    assert ((v0 * 64 + v1) * 64 + v2) * 64 + v3 == (b0 * 256 + b1) * 256 + b2;
  }

  // ----- hexadecimal -----

  function HexChar(v: int): (c: char)
    requires 0 <= v < 16
    ensures c as int < 128
  {
    if v < 10 then '0' + v as char else 'a' + (v - 10) as char
  }

  function HexEncode(bytes: seq<Byte>): (s: string)
    ensures |s| == 2 * |bytes| && IsByteText(s)
  {
    if bytes == [] then ""
    else [HexChar(bytes[0] / 16), HexChar(bytes[0] % 16)] + HexEncode(bytes[1..])
  }

  const HEX_DIGITS := "0123456789abcdef"

  /** Each byte becomes two lower-case digits, the high one first. */
  lemma {:induction false} HexAt(bytes: seq<Byte>, k: nat)
    requires k < |bytes|
    ensures var s := HexEncode(bytes);
            s[2 * k] == HEX_DIGITS[bytes[k] / 16] && s[2 * k + 1] == HEX_DIGITS[bytes[k] % 16]
  {
    if k > 0 { HexAt(bytes[1..], k - 1); }
  }

  lemma HexCharInjective(v: int, w: int)
    requires 0 <= v < 16 && 0 <= w < 16
    ensures HexChar(v) == HexChar(w) <==> v == w
  {
  }

  lemma {:induction false} HexPrefix(bytes: seq<Byte>, n: nat)
    requires n <= |bytes|
    ensures HexEncode(bytes)[..2 * n] == HexEncode(bytes[..n])
  {
    if n > 0 {
      HexPrefix(bytes[1..], n - 1);
      var s := HexEncode(bytes);
      assert bytes[..n][1..] == bytes[1..][..n - 1];
      assert s[..2 * n] == s[..2] + s[2..][..2 * (n - 1)];
    }
  }

  /** Two byte sequences have the same hexadecimal text exactly when they are equal. */
  lemma {:induction false} HexInjective(a: seq<Byte>, b: seq<Byte>)
    ensures HexEncode(a) == HexEncode(b) <==> a == b
  {
    if HexEncode(a) == HexEncode(b) {
      assert |a| == |b|;
      if a != [] {
        var (s, t) := (HexEncode(a), HexEncode(b));
        assert s[0] == t[0] && s[1] == t[1];
        HexCharInjective(a[0] / 16, b[0] / 16);
        HexCharInjective(a[0] % 16, b[0] % 16);
        assert s[2..] == HexEncode(a[1..]) && t[2..] == HexEncode(b[1..]);
        HexInjective(a[1..], b[1..]);
        assert a == [a[0]] + a[1..] && b == [b[0]] + b[1..];
      }
    }
  }
}
