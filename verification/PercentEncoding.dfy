// Percent-encoding of a URL path segment, against the decoding of section 2.1
// of RFC 3986.

module PercentEncoding {
  import opened Wrappers

  type Byte = b: int | 0 <= b < 256

  const HEX := "0123456789ABCDEF"

  // Section 2.3 of RFC 3986.
  predicate Unreserved(b: Byte) {
    || 'A' as int <= b <= 'Z' as int
    || 'a' as int <= b <= 'z' as int
    || '0' as int <= b <= '9' as int
    || b == '-' as int || b == '.' as int || b == '_' as int || b == '~' as int
  }

  function EncodeByte(b: Byte): string {
    if Unreserved(b) then [b as char] else ['%', HEX[b / 16], HEX[b % 16]]
  }

  function Encode(bytes: seq<Byte>): string {
    if bytes == [] then "" else EncodeByte(bytes[0]) + Encode(bytes[1..])
  }

  lemma EncodeUnfolds(bytes: seq<Byte>, i: nat)
    requires i < |bytes|
    ensures Encode(bytes[i..]) == EncodeByte(bytes[i]) + Encode(bytes[i + 1..])
  {
    assert bytes[i..][1..] == bytes[i + 1..];
  }

  lemma EncodedPrefix(done: string, next: string, rest: string)
    ensures done + (next + rest) == done + next + rest
  {
  }

  method UrlEncodePathSegment(bytes: seq<Byte>) returns (encoded: string)
    ensures encoded == Encode(bytes)
  {
    encoded := "";
    for i := 0 to |bytes|
      invariant encoded + Encode(bytes[i..]) == Encode(bytes)
    {
      EncodeUnfolds(bytes, i);
      EncodedPrefix(encoded, EncodeByte(bytes[i]), Encode(bytes[i + 1..]));
      var b := bytes[i] as char;
      if 'A' <= b <= 'Z' || 'a' <= b <= 'z' || '0' <= b <= '9' || b == '-' || b == '.' || b == '_' || b == '~' {
        encoded := encoded + [bytes[i] as char];
      } else {
        encoded := encoded + ['%', HEX[bytes[i] / 16], HEX[bytes[i] % 16]];
      }
    }
  }

  // ---- Decoding ----

  // Either case of hex digit, as the section allows.
  function HexValue(c: char): Option<nat> {
    if '0' <= c <= '9' then Some(c as int - '0' as int)
    else if 'A' <= c <= 'F' then Some(c as int - 'A' as int + 10)
    else if 'a' <= c <= 'f' then Some(c as int - 'a' as int + 10)
    else None
  }

  // The first octet of a text and how many characters it takes; the text is
  // malformed if a `%` is not followed by two hex digits or a character is
  // not an octet.
  function DecodeFirst(text: string): (first: Option<(Byte, nat)>)
    requires text != ""
    ensures first.Some? ==> 1 <= first.value.1 <= |text|
  {
    if text[0] != '%' then
      if text[0] as int < 256 then Some((text[0] as int, 1)) else None
    else if |text| < 3 then None
    else
      match (HexValue(text[1]), HexValue(text[2]))
      case (Some(high), Some(low)) => Some((HexPair(text), 3))
      case _ => None
  }

  function HexPair(text: string): Byte
    requires |text| >= 3 && HexValue(text[1]).Some? && HexValue(text[2]).Some?
  {
    HexValue(text[1]).value * 16 + HexValue(text[2]).value
  }

  function Decode(text: string): Option<seq<Byte>> {
    if text == "" then Some([])
    else
      var first := DecodeFirst(text);
      if first.None? then None
      else
        var rest := Decode(text[first.value.1..]);
        if rest.None? then None else Some([first.value.0] + rest.value)
  }

  lemma HexDigits(n: nat)
    requires n < 16
    ensures HexValue(HEX[n]) == HexValue("0123456789abcdef"[n]) == Some(n)
  {
  }

  lemma DecodeFirstEncoded(b: Byte, rest: string)
    ensures DecodeFirst(EncodeByte(b) + rest) == Some((b, |EncodeByte(b)|))
  {
    var text := EncodeByte(b) + rest;
    if !Unreserved(b) {
      assert text[1] == HEX[b / 16] && text[2] == HEX[b % 16];
      HexDigits(b / 16);
      HexDigits(b % 16);
    }
  }

  // Decoding undoes encoding, for every byte string.
  lemma {:induction false} DecodeEncode(bytes: seq<Byte>)
    ensures Decode(Encode(bytes)) == Some(bytes)
  {
    if bytes != [] {
      DecodeEncode(bytes[1..]);
      var head, rest := EncodeByte(bytes[0]), Encode(bytes[1..]);
      DecodeFirstEncoded(bytes[0], rest);
      assert (head + rest)[|head|..] == rest;
      assert [bytes[0]] + bytes[1..] == bytes;
    }
  }

  lemma EncodeInjective(a: seq<Byte>, b: seq<Byte>)
    ensures Encode(a) == Encode(b) <==> a == b
  {
    DecodeEncode(a);
    DecodeEncode(b);
  }

  // ---- What encodings look like ----

  predicate IsUpperHex(c: char) {
    '0' <= c <= '9' || 'A' <= c <= 'F'
  }

  // Unreserved characters, and upper-case triplets of every other octet.
  predicate Canonical(text: string)
    decreases |text|
  {
    text == ""
    || if text[0] != '%' then text[0] as int < 256 && Unreserved(text[0] as int) && Canonical(text[1..])
       else |text| >= 3 && IsUpperHex(text[1]) && IsUpperHex(text[2])
            && HexValue(text[1]).Some? && HexValue(text[2]).Some? && !Unreserved(HexPair(text))
            && Canonical(text[3..])
  }

  lemma HexOf(c: char)
    requires IsUpperHex(c)
    ensures HexValue(c).Some? && HexValue(c).value < 16 && HEX[HexValue(c).value] == c
  {
  }

  lemma {:induction false} EncodingsAreCanonical(bytes: seq<Byte>)
    ensures Canonical(Encode(bytes))
  {
    if bytes != [] {
      EncodingsAreCanonical(bytes[1..]);
      var head, rest := EncodeByte(bytes[0]), Encode(bytes[1..]);
      DecodeFirstEncoded(bytes[0], rest);
      assert (head + rest)[|head|..] == rest;
    }
  }

  lemma {:induction false} CanonicalIsEncoding(text: string)
    requires Canonical(text)
    ensures Decode(text).Some? && Encode(Decode(text).value) == text
    decreases |text|
  {
    if text != "" {
      var width := if text[0] == '%' then 3 else 1;
      CanonicalIsEncoding(text[width..]);
      assert text == text[..width] + text[width..];
      var b, rest := DecodeFirst(text).value.0, Decode(text[width..]).value;
      assert Decode(text) == Some([b] + rest);
      assert ([b] + rest)[1..] == rest;
      if text[0] == '%' {
        HexOf(text[1]);
        HexOf(text[2]);
        assert b / 16 == HexValue(text[1]).value && b % 16 == HexValue(text[2]).value;
      }
      assert EncodeByte(b) == text[..width];
    }
  }

  // Re-encoding a decoded text gives it back exactly for canonical texts, so
  // the encoder's outputs are exactly the canonical texts.
  lemma EncodeDecodeIff(text: string)
    ensures Decode(text).Some? && Encode(Decode(text).value) == text <==> Canonical(text)
  {
    if Decode(text).Some? {
      EncodingsAreCanonical(Decode(text).value);
    }
    if Canonical(text) {
      CanonicalIsEncoding(text);
    }
  }

  function CountReserved(bytes: seq<Byte>): (n: nat)
    ensures n <= |bytes|
    ensures n == 0 <==> forall i :: 0 <= i < |bytes| ==> Unreserved(bytes[i])
  {
    if bytes == [] then 0
    else
      assert forall i :: 0 <= i < |bytes| - 1 ==> bytes[1..][i] == bytes[i + 1];
      CountReserved(bytes[1..]) + if Unreserved(bytes[0]) then 0 else 1
  }

  // Two extra characters per reserved octet: between n and 3n in all, and the
  // input itself exactly when it has no reserved octet.
  lemma {:induction false} EncodedLength(bytes: seq<Byte>)
    ensures |Encode(bytes)| == |bytes| + 2 * CountReserved(bytes)
    ensures |bytes| <= |Encode(bytes)| <= 3 * |bytes|
    ensures |Encode(bytes)| == |bytes| <==> forall i :: 0 <= i < |bytes| ==> Unreserved(bytes[i])
  {
    if bytes != [] {
      EncodedLength(bytes[1..]);
    }
  }
}
