/** Text encodings the backend builds identifiers from: lower-case hexadecimal
    of random bytes (transaction references, API-key secrets) and the decimal
    form of a natural number (wallet numbers). Each encoder has its decoder
    and a round-trip lemma, so that distinct inputs give distinct strings. */
module Encoding {
  import opened Entities

  newtype byte = x: int | 0 <= x < 256

  const HexDigits: string := "0123456789abcdef"

  predicate IsHexString(s: string) {
    forall i :: 0 <= i < |s| ==> s[i] in HexDigits
  }

  predicate IsDecimalString(s: string) {
    forall i :: 0 <= i < |s| ==> '0' <= s[i] <= '9'
  }

  function HexChar(d: nat): (c: char)
    requires d < 16
    ensures c in HexDigits
  {
    HexDigits[d]
  }

  /** The value of one lower-case hexadecimal digit. */
  function HexValue(c: char): (r: Option<nat>)
    ensures r.Some? <==> c in HexDigits
    ensures r.Some? ==> r.value < 16 && HexDigits[r.value] == c
  {
    if '0' <= c <= '9' then Some(c as int - '0' as int)
    else if 'a' <= c <= 'f' then Some(c as int - 'a' as int + 10)
    else None
  }



  /** Node's `toString('hex')`: two lower-case digits per byte, high nibble first. */
  function Hex(bytes: seq<byte>): (s: string)
    ensures |s| == 2 * |bytes|
    ensures IsHexString(s)
  {
    if bytes == [] then ""
    else [HexChar(bytes[0] as nat / 16), HexChar(bytes[0] as nat % 16)] + Hex(bytes[1..])
  }

  /** The inverse of Hex on strings of even length made of its digits. */
  function HexDecode(s: string): (r: Option<seq<byte>>)
    decreases |s|
  {
    if |s| < 2 then (if s == [] then Some([]) else None)
    else
      var hi, lo, rest := HexValue(s[0]), HexValue(s[1]), HexDecode(s[2..]);
      if hi.None? || lo.None? || rest.None? then None
      else Some([ByteOf(hi.value, lo.value)] + rest.value)
  }

  function ByteOf(hi: nat, lo: nat): (b: byte)
    requires hi < 16 && lo < 16
  {
    (hi * 16 + lo) as byte
  }

  lemma {:induction false} HexRoundTrip(bytes: seq<byte>)
    ensures HexDecode(Hex(bytes)) == Some(bytes)
  {
    if bytes != [] {
      var b := bytes[0] as nat;
      HexRoundTrip(bytes[1..]);
      HexDecodeStep(b / 16, b % 16, Hex(bytes[1..]));
      assert ByteOf(b / 16, b % 16) == bytes[0];
      assert [bytes[0]] + bytes[1..] == bytes;
    }
  }

  /** Decoding the two digits of one byte in front of a decodable rest. */
  lemma HexDecodeStep(hi: nat, lo: nat, rest: string)
    requires hi < 16 && lo < 16
    requires HexDecode(rest).Some?
    ensures HexDecode([HexChar(hi), HexChar(lo)] + rest) == Some([ByteOf(hi, lo)] + HexDecode(rest).value)
  {
    var s := [HexChar(hi), HexChar(lo)] + rest;
    assert s[2..] == rest;
    HexCharValue(hi);
    HexCharValue(lo);
  }

  lemma HexCharValue(d: nat)
    requires d < 16
    ensures HexValue(HexChar(d)) == Some(d)
  {
  }

  lemma HexInjective(a: seq<byte>, b: seq<byte>)
    requires Hex(a) == Hex(b)
    ensures a == b
  {
    HexRoundTrip(a);
    HexRoundTrip(b);
  }

  function DecimalChar(d: nat): (c: char)
    requires d < 10
    ensures '0' <= c <= '9'
  {
    (d + '0' as int) as char
  }

  /** JavaScript's `toString()` of a non-negative integer: no sign, no
      leading zeros. */
  function Decimal(n: nat): (s: string)
    ensures |s| >= 1
    ensures IsDecimalString(s)
  {
    if n < 10 then [DecimalChar(n)]
    else Decimal(n / 10) + [DecimalChar(n % 10)]
  }

  /** The inverse of Decimal: the number that a string of decimal digits denotes. */
  function DecimalValue(s: string): (n: nat)
    requires IsDecimalString(s)
  {
    if s == [] then 0
    else 10 * DecimalValue(s[..|s| - 1]) + (s[|s| - 1] as int - '0' as int)
  }

  lemma {:induction false} DecimalRoundTrip(n: nat)
    ensures DecimalValue(Decimal(n)) == n
  {
    var s := Decimal(n);
    if n >= 10 {
      DecimalRoundTrip(n / 10);
      assert s[..|s| - 1] == Decimal(n / 10);
    }
  }

  function Pow10(k: nat): (p: nat)
    ensures p >= 1
  {
    if k == 0 then 1 else 10 * Pow10(k - 1)
  }

  /** A number with k digits prints as exactly k characters. */
  lemma {:induction false} DecimalLength(n: nat, k: nat)
    requires 1 <= k && Pow10(k - 1) <= n < Pow10(k)
    ensures |Decimal(n)| == k
  {
    if k == 1 {
      assert Pow10(1) == 10;
    } else {
      assert n >= 10 by { assert Pow10(k - 1) >= 10 by { Pow10Grows(k - 1); } }
      DecimalLength(n / 10, k - 1);
    }
  }

  lemma {:induction false} Pow10Grows(k: nat)
    requires k >= 1
    ensures Pow10(k) >= 10
  {
    if k > 1 { Pow10Grows(k - 1); }
  }

  lemma DecimalInjective(a: nat, b: nat)
    requires Decimal(a) == Decimal(b)
    ensures a == b
  {
    DecimalRoundTrip(a);
    DecimalRoundTrip(b);
  }
}
