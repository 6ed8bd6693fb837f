/** The price identifier encoder `decodeBytesArray`: a byte sequence becomes
    `"0x"` followed by its lower-case Base16 encoding (section 8 of RFC 4648,
    with the lower-case alphabet that Node's `Buffer.toString('hex')` uses). */
module HexId {
  import opened Wrappers

  /** The lower-case Base16 alphabet. */
  const Alphabet: string := "0123456789abcdef"

  /** The prefix every encoded identifier starts with. */
  const Prefix: string := "0x"

  predicate IsByte(b: int) {
    0 <= b < 256
  }

  /** Every element is a byte value; `Buffer.from` would truncate anything else. */
  predicate ValidBytes(bytes: seq<int>) {
    forall i :: 0 <= i < |bytes| ==> IsByte(bytes[i])
  }

  predicate IsLowerHexDigit(c: char) {
    '0' <= c <= '9' || 'a' <= c <= 'f'
  }

  /** The value of a lower-case hex digit; upper-case and other characters have none. */
  function DigitValue(c: char): (v: Option<int>)
    ensures v.Some? <==> IsLowerHexDigit(c)
    ensures v.Some? ==> 0 <= v.value < 16
  {
    if '0' <= c <= '9' then Some(c as int - '0' as int)
    else if 'a' <= c <= 'f' then Some(c as int - 'a' as int + 10)
    else None
  }

  /** The alphabet character for a nibble. */
  function HexDigit(n: int): (c: char)
    requires 0 <= n < 16
    ensures IsLowerHexDigit(c)
    ensures DigitValue(c) == Some(n)
  {
    Alphabet[n]
  }

  /** The two digits of one byte, high nibble first. */
  function ByteHex(b: int): (pair: string)
    requires IsByte(b)
    ensures |pair| == 2 && IsLowerHexDigit(pair[0]) && IsLowerHexDigit(pair[1])
  {
    [HexDigit(b / 16), HexDigit(b % 16)]
  }

  /** Two hex digits per byte, high nibble first, bytes in input order. */
  function HexOf(bytes: seq<int>): (s: string)
    requires ValidBytes(bytes)
    ensures |s| == 2 * |bytes|
    ensures forall i :: 0 <= i < |bytes| ==>
      s[2 * i] == HexDigit(bytes[i] / 16) && s[2 * i + 1] == HexDigit(bytes[i] % 16)
    ensures forall k :: 0 <= k < |s| ==> IsLowerHexDigit(s[k])
  {
    if |bytes| == 0 then ""
    else
      var rest := HexOf(bytes[1..]);
      ByteHex(bytes[0]) + rest
  }

  /** `decodeBytesArray`: the identifier string used as the price id. */
  function DecodeBytesArray(bytes: seq<int>): (id: string)
    requires ValidBytes(bytes)
    ensures |id| == 2 * |bytes| + 2
    ensures id[..2] == Prefix
    ensures forall i :: 0 <= i < |bytes| ==>
      id[2 * i + 2] == HexDigit(bytes[i] / 16) && id[2 * i + 3] == HexDigit(bytes[i] % 16)
    ensures forall k :: 2 <= k < |id| ==> IsLowerHexDigit(id[k])
  {
    Prefix + HexOf(bytes)
  }

  /** Inverse of `HexOf`: reads pairs of lower-case hex digits back into bytes. */
  function ParseHex(s: string): (r: Option<seq<int>>)
    decreases |s|
  {
    if |s| == 0 then Some([])
    else if |s| == 1 then None
    else
      match (DigitValue(s[0]), DigitValue(s[1]), ParseHex(s[2..]))
      case (Some(hi), Some(lo), Some(rest)) => Some([hi * 16 + lo] + rest)
      case _ => None
  }

  /** Inverse of `DecodeBytesArray`: drops the `"0x"` prefix, then parses. */
  function ParseId(id: string): (r: Option<seq<int>>)
  {
    if |id| >= 2 && id[..2] == Prefix then ParseHex(id[2..]) else None
  }

  lemma {:induction false} ParseHexOf(bytes: seq<int>)
    requires ValidBytes(bytes)
    ensures ParseHex(HexOf(bytes)) == Some(bytes)
    decreases |bytes|
  {
    if |bytes| > 0 {
      var s := HexOf(bytes);
      var b := bytes[0];
      ParseHexOf(bytes[1..]);
      assert s == ByteHex(b) + HexOf(bytes[1..]);
      assert s[2..] == HexOf(bytes[1..]);
      assert DigitValue(s[0]) == Some(b / 16) && DigitValue(s[1]) == Some(b % 16);
      assert b / 16 * 16 + b % 16 == b;
      assert ParseHex(s) == Some([b] + bytes[1..]);
      assert [b] + bytes[1..] == bytes;
    }
  }

  lemma {:induction false} HexOfParse(s: string, bytes: seq<int>)
    requires ParseHex(s) == Some(bytes)
    ensures ValidBytes(bytes)
    ensures HexOf(bytes) == s
    decreases |s|
  {
    if |s| > 0 {
      var hi := DigitValue(s[0]).value;
      var lo := DigitValue(s[1]).value;
      var rest := ParseHex(s[2..]).value;
      var b := hi * 16 + lo;
      assert bytes == [b] + rest;
      HexOfParse(s[2..], rest);
      assert b / 16 == hi && b % 16 == lo;
      DigitRoundTrip(s[0]);
      DigitRoundTrip(s[1]);
      assert ByteHex(b) == [s[0], s[1]];
      assert bytes[1..] == rest;
      assert HexOf(bytes) == ByteHex(b) + HexOf(rest);
      assert s == [s[0], s[1]] + s[2..];
    }
  }

  lemma DigitRoundTrip(c: char)
    requires IsLowerHexDigit(c)
    ensures HexDigit(DigitValue(c).value) == c
  {
    if c == '0' {} else if c == '1' {} else if c == '2' {} else if c == '3' {}
    else if c == '4' {} else if c == '5' {} else if c == '6' {} else if c == '7' {}
    else if c == '8' {} else if c == '9' {} else if c == 'a' {} else if c == 'b' {}
    else if c == 'c' {} else if c == 'd' {} else if c == 'e' {} else {}
  }

  /** Encoding then parsing gives back the bytes. */
  lemma RoundTrip(bytes: seq<int>)
    requires ValidBytes(bytes)
    ensures ParseId(DecodeBytesArray(bytes)) == Some(bytes)
  {
    var id := DecodeBytesArray(bytes);
    assert id[2..] == HexOf(bytes);
    ParseHexOf(bytes);
  }

  /** A string parses to some bytes exactly when it is their encoding. */
  lemma ParseIdExact(id: string, bytes: seq<int>)
    ensures ParseId(id) == Some(bytes) <==> ValidBytes(bytes) && DecodeBytesArray(bytes) == id
  {
    if ParseId(id) == Some(bytes) {
      HexOfParse(id[2..], bytes);
      assert id == id[..2] + id[2..];
    }
    if ValidBytes(bytes) && DecodeBytesArray(bytes) == id {
      RoundTrip(bytes);
    }
  }

  /** Distinct byte sequences give distinct identifiers. */
  lemma DecodeInjective(a: seq<int>, b: seq<int>)
    requires ValidBytes(a) && ValidBytes(b)
    requires DecodeBytesArray(a) == DecodeBytesArray(b)
    ensures a == b
  {
    RoundTrip(a);
    RoundTrip(b);
  }

  /** The empty sequence encodes to the bare prefix; `[0xAB, 0xCD]` to `"0xabcd"`. */
  lemma DecodeExamples()
    ensures DecodeBytesArray([]) == "0x"
    ensures DecodeBytesArray([0xAB, 0xCD]) == "0xabcd"
  {
    var ab := DecodeBytesArray([0xAB, 0xCD]);
    assert ab[2] == 'a' && ab[3] == 'b' && ab[4] == 'c' && ab[5] == 'd';
  }
}
