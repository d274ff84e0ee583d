/**
 * Base64 as the client's `encodeBase64`/`decodeBase64` use it: the fallback loops that
 * turn bytes into a "binary string" (one character per byte) and back, and `btoa`,
 * which is the standard base64 encoding of RFC 4648, section 4 (alphabet of Table 1,
 * `=` padding). `atob` is not defined here: the client receives it as a primitive.
 */
module Base64 {
  import opened Wrappers

  /** An element of a Uint8Array. */
  newtype byte = x: int | 0 <= x < 256

  /** A character of the base64 alphabet or the padding character. */
  predicate IsBase64Char(c: char)
  {
    ('A' <= c <= 'Z') || ('a' <= c <= 'z') || ('0' <= c <= '9') || c == '+' || c == '/' || c == '='
  }

  /** The character of RFC 4648, Table 1, for a 6-bit value. */
  function Sextet(v: int): (c: char)
    requires 0 <= v < 64
    ensures IsBase64Char(c) && c != '='
  {
    if v < 26 then ('A' as int + v) as char
    else if v < 52 then ('a' as int + (v - 26)) as char
    else if v < 62 then ('0' as int + (v - 52)) as char
    else if v == 62 then '+'
    else '/'
  }

  /** Encoding of one group of up to three bytes into four characters, padded with `=`. */
  function EncodeGroup(g: seq<byte>): (r: string)
    requires 1 <= |g| <= 3
    ensures |r| == 4 && forall i :: 0 <= i < 4 ==> IsBase64Char(r[i])
  {
    var b0 := g[0] as int;
    if |g| == 1 then
      [Sextet(b0 / 4), Sextet((b0 % 4) * 16), '=', '=']
    else
      var b1 := g[1] as int;
      if |g| == 2 then
        [Sextet(b0 / 4), Sextet((b0 % 4) * 16 + b1 / 16), Sextet((b1 % 16) * 4), '=']
      else
        var b2 := g[2] as int;
        [Sextet(b0 / 4), Sextet((b0 % 4) * 16 + b1 / 16), Sextet((b1 % 16) * 4 + b2 / 64), Sextet(b2 % 64)]
  }

  /** The base64 text of a byte string: four characters per started group of three bytes, all from the alphabet. */
  function Encode(b: seq<byte>): (r: string)
    ensures |r| == 4 * ((|b| + 2) / 3)
    ensures forall i :: 0 <= i < |r| ==> IsBase64Char(r[i])
    decreases |b|
  {
    if |b| == 0 then ""
    else if |b| <= 3 then EncodeGroup(b)
    else
      var head, tail := EncodeGroup(b[..3]), Encode(b[3..]);
      assert (|b| + 2) / 3 == 1 + (|b[3..]| + 2) / 3;
      head + tail
  }

  /** Base64 text never contains `?`, so it never contains the `?iv=` marker. */
  lemma EncodeHasNoQuestionMark(b: seq<byte>)
    ensures '?' !in Encode(b)
  {
    var r := Encode(b);
    forall i | 0 <= i < |r| ensures r[i] != '?' {
      assert IsBase64Char(r[i]);
    }
  }

  /** The binary string of the encode loop: character i has the code of byte i. */
  function BinaryString(bytes: seq<byte>): string
  {
    seq(|bytes|, i requires 0 <= i < |bytes| => bytes[i] as int as char)
  }

  /**
   * The bytes of the decode loop: byte i is the code of character i, truncated to
   * eight bits as a store into a Uint8Array truncates.
   */
  function ByteValues(binary: string): seq<byte>
  {
    seq(|binary|, i requires 0 <= i < |binary| => (binary[i] as int % 256) as byte)
  }

  /** `btoa`: base64 of a string whose characters are all below 256, and an error otherwise. */
  function Btoa(binary: string): (r: Option<string>)
    ensures r.Some? <==> forall i :: 0 <= i < |binary| ==> binary[i] as int < 256
  {
    if forall i :: 0 <= i < |binary| ==> binary[i] as int < 256 then Some(Encode(ByteValues(binary)))
    else None
  }

  /** The decode loop undoes the encode loop for every byte value 0..255. */
  lemma BinaryRoundTrip(bytes: seq<byte>)
    ensures ByteValues(BinaryString(bytes)) == bytes
    ensures Btoa(BinaryString(bytes)) == Some(Encode(bytes))
  {
    var s := BinaryString(bytes);
    forall i | 0 <= i < |bytes| ensures ByteValues(s)[i] == bytes[i] {
      assert s[i] as int == bytes[i] as int;
    }
  }

  /** The encode loop of `encodeBase64` followed by `btoa`. */
  method EncodeBase64(bytes: seq<byte>) returns (text: string)
    ensures text == Encode(bytes)
  {
    var binary := "";
    var i := 0;
    while i < |bytes|
      invariant 0 <= i <= |bytes|
      invariant binary == BinaryString(bytes[..i])
    {
      binary := binary + [bytes[i] as int as char];
      i := i + 1;
    }
    assert bytes[..i] == bytes;
    BinaryRoundTrip(bytes);
    text := Btoa(binary).value;
  }

  /** The decode loop of `decodeBase64`, applied to the binary string that `atob` returned. */
  method BytesOfBinary(binary: string) returns (bytes: array<byte>)
    ensures fresh(bytes) && bytes[..] == ByteValues(binary)
  {
    bytes := new byte[|binary|];
    var i := 0;
    while i < |binary|
      invariant 0 <= i <= |binary|
      invariant forall k :: 0 <= k < i ==> bytes[k] == (binary[k] as int % 256) as byte
    {
      bytes[i] := (binary[i] as int % 256) as byte;
      i := i + 1;
    }
  }

  /** `decodeBase64` on the fallback path, as a value: `atob` (None when it throws) and then the decode loop. */
  function DecodeBytes(atob: string -> Option<string>, text: string): (r: Option<seq<byte>>)
    ensures r.Some? <==> atob(text).Some?
    ensures r.Some? ==> |r.value| == |atob(text).value|
    ensures forall b :: atob(text) == Some(BinaryString(b)) ==> r == Some(b)
  {
    match atob(text)
    case None => None
    case Some(binary) =>
      assert forall b :: binary == BinaryString(b) ==> ByteValues(binary) == b by {
        forall b | binary == BinaryString(b) ensures ByteValues(binary) == b {
          BinaryRoundTrip(b);
        }
      }
      Some(ByteValues(binary))
  }

  /** `decodeBase64` on the fallback path: `atob` and then the decode loop into a fresh array. */
  method DecodeBase64(atob: string -> Option<string>, text: string) returns (r: Option<array<byte>>)
    ensures r.Some? <==> DecodeBytes(atob, text).Some?
    ensures r.Some? ==> fresh(r.value) && r.value[..] == DecodeBytes(atob, text).value
  {
    match atob(text)
    case None =>
      r := None;
    case Some(binary) =>
      var bytes := BytesOfBinary(binary);
      r := Some(bytes);
  }
}
