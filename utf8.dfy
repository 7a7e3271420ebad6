/**
 * UTF-8 encoding of strings (RFC 3629, section 3), as Java's `String.getBytes(UTF_8)`
 * computes it for a string without unpaired surrogates. A Dafny `char` is a Unicode
 * scalar value, so every string here is well formed.
 */
module Utf8 {
  import opened Wrappers

  /** The continuation byte `10xxxxxx` carrying six payload bits. */
  function Continuation(bits: int): (b: uint8)
    requires 0 <= bits < 0x40
    ensures 0x80 <= b < 0xC0 && b as int - 0x80 == bits
  {
    (0x80 + bits) as uint8
  }

  /** The encoding of one scalar value: one to four bytes. */
  function EncodeScalar(c: char): (b: seq<uint8>)
    ensures 1 <= |b| <= 4
  {
    var n := c as int;
    if n < 0x80 then
      [n as uint8]
    else if n < 0x800 then
      [(0xC0 + n / 0x40) as uint8, Continuation(n % 0x40)]
    else if n < 0x1_0000 then
      [(0xE0 + n / 0x1000) as uint8, Continuation(n / 0x40 % 0x40), Continuation(n % 0x40)]
    else
      [(0xF0 + n / 0x4_0000) as uint8, Continuation(n / 0x1000 % 0x40),
       Continuation(n / 0x40 % 0x40), Continuation(n % 0x40)]
  }

  /** The encoding of a string: the encodings of its scalar values, in order. */
  function Encode(s: string): (b: seq<uint8>)
    ensures |s| <= |b| <= 4 * |s|
  {
    if s == [] then [] else EncodeScalar(s[0]) + Encode(s[1..])
  }

  /** The length of a UTF-8 sequence, read off its leading byte. */
  function SequenceLength(lead: uint8): nat {
    if lead < 0x80 then 1
    else if lead < 0xE0 then 2
    else if lead < 0xF0 then 3
    else 4
  }

  /** The scalar value a well-formed sequence of one to four bytes stands for. */
  function ScalarValue(b: seq<uint8>): int
    requires 1 <= |b| <= 4
  {
    if |b| == 1 then b[0] as int
    else if |b| == 2 then (b[0] as int - 0xC0) * 0x40 + (b[1] as int - 0x80)
    else if |b| == 3 then
      ((b[0] as int - 0xE0) * 0x40 + (b[1] as int - 0x80)) * 0x40 + (b[2] as int - 0x80)
    else
      (((b[0] as int - 0xF0) * 0x40 + (b[1] as int - 0x80)) * 0x40 + (b[2] as int - 0x80)) * 0x40
        + (b[3] as int - 0x80)
  }

  /** Splitting off the low six bits: `n / 64^(k+1)` is `(n / 64^k) / 64`. */
  lemma SixBits(n: nat)
    ensures n == n / 0x40 * 0x40 + n % 0x40
    ensures n / 0x1000 == n / 0x40 / 0x40
    ensures n / 0x4_0000 == n / 0x1000 / 0x40
  {
  }

  /** The leading byte of a scalar's encoding gives its length, and the bytes give back the scalar. */
  lemma ScalarRoundTrip(c: char)
    ensures SequenceLength(EncodeScalar(c)[0]) == |EncodeScalar(c)|
    ensures ScalarValue(EncodeScalar(c)) == c as int
  {
    var n := c as int;
    var b := EncodeScalar(c);
    SixBits(n);
    SixBits(n / 0x40);
    SixBits(n / 0x1000);
    if n < 0x80 {
    } else if n < 0x800 {
      assert b[0] as int == 0xC0 + n / 0x40;
    } else if n < 0x1_0000 {
      assert b[0] as int == 0xE0 + n / 0x1000;
      assert ScalarValue(b) == (n / 0x1000 * 0x40 + n / 0x40 % 0x40) * 0x40 + n % 0x40;
    } else {
      assert b[0] as int == 0xF0 + n / 0x4_0000;
      assert ScalarValue(b)
        == ((n / 0x4_0000 * 0x40 + n / 0x1000 % 0x40) * 0x40 + n / 0x40 % 0x40) * 0x40 + n % 0x40;
    }
  }

  /** Distinct strings have distinct encodings. */
  lemma {:induction false} EncodeInjective(s: string, t: string)
    ensures Encode(s) == Encode(t) <==> s == t
  {
    if Encode(s) == Encode(t) && s != [] {
      var a, b := EncodeScalar(s[0]), EncodeScalar(t[0]);
      assert Encode(s) == a + Encode(s[1..]);
      assert Encode(t) == b + Encode(t[1..]);
      ScalarRoundTrip(s[0]);
      ScalarRoundTrip(t[0]);
      assert a[0] == Encode(s)[0] == b[0];
      assert a == Encode(s)[..|a|] == b;
      assert s[0] == t[0];
      assert Encode(s[1..]) == Encode(s)[|a|..] == Encode(t[1..]);
      EncodeInjective(s[1..], t[1..]);
      assert s == [s[0]] + s[1..];
      assert t == [t[0]] + t[1..];
    }
  }

  /** A string of ASCII characters encodes to one byte per character, the character's code. */
  lemma {:induction false} EncodeAscii(s: string)
    requires forall i :: 0 <= i < |s| ==> s[i] as int < 0x80
    ensures |Encode(s)| == |s|
    ensures forall i :: 0 <= i < |s| ==> Encode(s)[i] == s[i] as int as uint8
  {
    if s != [] {
      EncodeAscii(s[1..]);
      assert Encode(s) == [s[0] as int as uint8] + Encode(s[1..]);
    }
  }
}
