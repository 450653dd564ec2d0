/** Base16 ("hex") encoding, section 8 of RFC 4648, with the behaviour of the
    Rust `hex` crate that rust/src/api/utils.rs calls: `encode` writes the
    lower-case alphabet, `decode` accepts both cases, refuses an input whose
    UTF-8 length is odd, and otherwise reports the first byte that is not a
    hex digit. */
module Hex {
  import opened Wrappers

  type Byte = x: int | 0 <= x < 0x100

  datatype DecodeError = OddLength | InvalidHexCharacter(index: nat)

  predicate IsHexDigit(c: char) {
    ('0' <= c <= '9') || ('a' <= c <= 'f') || ('A' <= c <= 'F')
  }

  predicate IsLowerHexDigit(c: char) {
    ('0' <= c <= '9') || ('a' <= c <= 'f')
  }

  predicate AllHex(s: string) {
    forall i :: 0 <= i < |s| ==> IsHexDigit(s[i])
  }

  /** The digit of the RFC 4648 base16 alphabet for the value `d`. */
  function DigitChar(d: int): (c: char)
    requires 0 <= d < 16
    ensures IsLowerHexDigit(c) && IsHexDigit(c)
    ensures DigitValue(c) == d
  {
    if d < 10 then ('0' as int + d) as char else ('a' as int + d - 10) as char
  }

  /** The value of a hex digit of either case. */
  function DigitValue(c: char): (v: nat)
    requires IsHexDigit(c)
    ensures v < 16
  {
    if '0' <= c <= '9' then c as int - '0' as int
    else if 'a' <= c <= 'f' then c as int - 'a' as int + 10
    else c as int - 'A' as int + 10
  }

  /** Every lower-case digit is the digit of its own value. */
  lemma DigitOfValue(c: char)
    requires IsLowerHexDigit(c)
    ensures DigitChar(DigitValue(c)) == c
  {
  }

  /** The lower-case form of a hex digit (other characters unchanged). */
  function LowerDigit(c: char): char {
    if 'A' <= c <= 'F' then (c as int - 'A' as int + 'a' as int) as char else c
  }

  function Lower(s: string): (r: string)
    ensures |r| == |s|
  {
    if s == [] then [] else [LowerDigit(s[0])] + Lower(s[1..])
  }

  /** Number of bytes of the UTF-8 encoding of one Unicode scalar value. */
  function Utf8Width(c: char): nat {
    if c as int < 0x80 then 1
    else if c as int < 0x800 then 2
    else if c as int < 0x1_0000 then 3
    else 4
  }

  /** Length in bytes of the UTF-8 encoding of `s`; Rust's `str::len`. */
  function Utf8Length(s: string): nat {
    if s == [] then 0 else Utf8Width(s[0]) + Utf8Length(s[1..])
  }

  /** `hex::encode`: two lower-case digits per byte, high nibble first. */
  function Encode(bytes: seq<Byte>): (s: string)
    ensures |s| == 2 * |bytes|
    ensures forall i :: 0 <= i < |s| ==> IsLowerHexDigit(s[i])
  {
    if bytes == [] then []
    else [DigitChar(bytes[0] / 16), DigitChar(bytes[0] % 16)] + Encode(bytes[1..])
  }

  /** Index of the first character that is not a hex digit, if any. */
  function FirstNonHex(s: string): (r: Option<nat>)
    ensures r.None? <==> AllHex(s)
    ensures r.Some? ==> r.value < |s| && !IsHexDigit(s[r.value])
                        && forall j :: 0 <= j < r.value ==> IsHexDigit(s[j])
  {
    if s == [] then None
    else if !IsHexDigit(s[0]) then Some(0)
    else match FirstNonHex(s[1..])
      case None => None
      case Some(i) => Some(i + 1)
  }

  /** The bytes of a string made of an even number of hex digits. */
  function DecodeDigits(s: string): (bytes: seq<Byte>)
    requires AllHex(s) && |s| % 2 == 0
    ensures 2 * |bytes| == |s|
  {
    if s == [] then []
    else [16 * DigitValue(s[0]) + DigitValue(s[1])] + DecodeDigits(s[2..])
  }

  /** `hex::decode`: on success one byte per two hex digits, each byte the
      value of its pair of digits; on a bad character, its index. */
  function Decode(s: string): (r: Result<seq<Byte>, DecodeError>)
    ensures r.Success? ==> AllHex(s) && 2 * |r.value| == |s|
    ensures r.Success? ==> forall k :: 0 <= k < |r.value| ==>
              r.value[k] == 16 * DigitValue(s[2 * k]) + DigitValue(s[2 * k + 1])
    ensures r.Failure? && r.error.InvalidHexCharacter? ==>
              r.error.index < |s| && !IsHexDigit(s[r.error.index])
  {
    if Utf8Length(s) % 2 != 0 then Failure(OddLength)
    else match FirstNonHex(s)
      case Some(i) => Failure(InvalidHexCharacter(i))
      case None => AllHexIsAscii(s); DecodeDigitsAt(s); Success(DecodeDigits(s))
  }

  /** A suffix of a string of hex digits is one too. */
  lemma AllHexSuffix(s: string, n: nat)
    requires AllHex(s) && n <= |s|
    ensures AllHex(s[n..])
  {
    forall i | 0 <= i < |s[n..]| ensures IsHexDigit(s[n..][i]) { assert s[n..][i] == s[n + i]; }
  }

  /** Byte `k` of the decoding is the value of digits `2k` and `2k + 1`. */
  lemma {:induction false} DecodeDigitsByte(s: string, k: nat)
    requires AllHex(s) && |s| % 2 == 0 && 2 * k < |s|
    ensures DecodeDigits(s)[k] == 16 * DigitValue(s[2 * k]) + DigitValue(s[2 * k + 1])
    decreases k
  {
    if k > 0 {
      AllHexSuffix(s, 2);
      DecodeDigitsByte(s[2..], k - 1);
      assert s[2..][2 * (k - 1)] == s[2 * k] && s[2..][2 * (k - 1) + 1] == s[2 * k + 1];
    }
  }

  lemma DecodeDigitsAt(s: string)
    requires AllHex(s) && |s| % 2 == 0
    ensures forall k :: 0 <= k < |DecodeDigits(s)| ==>
              DecodeDigits(s)[k] == 16 * DigitValue(s[2 * k]) + DigitValue(s[2 * k + 1])
  {
    forall k | 0 <= k < |DecodeDigits(s)|
      ensures DecodeDigits(s)[k] == 16 * DigitValue(s[2 * k]) + DigitValue(s[2 * k + 1])
    {
      DecodeDigitsByte(s, k);
    }
  }

  /** A string of hex digits is ASCII, so its UTF-8 length is its length. */
  lemma {:induction false} AllHexIsAscii(s: string)
    requires AllHex(s)
    ensures Utf8Length(s) == |s|
  {
    if s != [] {
      assert AllHex(s[1..]) by {
        forall i | 0 <= i < |s[1..]| ensures IsHexDigit(s[1..][i]) { assert s[1..][i] == s[i + 1]; }
      }
      AllHexIsAscii(s[1..]);
    }
  }

  /** Decoding succeeds exactly on strings of an even number of hex digits
      (of either case), and then yields one byte per two digits. */
  lemma DecodeSucceedsIff(s: string)
    ensures Decode(s).Success? <==> AllHex(s) && |s| % 2 == 0
    ensures Decode(s).Success? ==> 2 * |Decode(s).value| == |s|
  {
    if AllHex(s) { AllHexIsAscii(s); }
  }

  /** An odd UTF-8 length is reported before any bad character; otherwise the
      first character that is not a hex digit is the one reported. */
  lemma DecodeFailure(s: string)
    ensures Utf8Length(s) % 2 != 0 ==> Decode(s) == Failure(OddLength)
    ensures Utf8Length(s) % 2 == 0 && !AllHex(s) ==>
              Decode(s).Failure? && Decode(s).error.InvalidHexCharacter?
              && var i := Decode(s).error.index;
                 i < |s| && !IsHexDigit(s[i]) && forall j :: 0 <= j < i ==> IsHexDigit(s[j])
  {
  }

  lemma {:induction false} DecodeDigitsOfEncode(bytes: seq<Byte>)
    ensures AllHex(Encode(bytes))
    ensures DecodeDigits(Encode(bytes)) == bytes
  {
    if bytes != [] {
      var s := Encode(bytes);
      assert s[2..] == Encode(bytes[1..]);
      DecodeDigitsOfEncode(bytes[1..]);
      assert 16 * DigitValue(s[0]) + DigitValue(s[1]) == bytes[0];
    }
  }

  /** Round trip: decoding an encoding gives back the bytes. */
  lemma DecodeEncode(bytes: seq<Byte>)
    ensures Decode(Encode(bytes)) == Success(bytes)
  {
    DecodeDigitsOfEncode(bytes);
    AllHexIsAscii(Encode(bytes));
  }

  lemma Nibbles(high: nat, low: nat)
    requires high < 16 && low < 16
    ensures (16 * high + low) / 16 == high && (16 * high + low) % 16 == low
  {
  }

  /** A digit of either case re-encodes as its lower-case form. */
  lemma DigitOfAnyCase(c: char)
    requires IsHexDigit(c)
    ensures DigitChar(DigitValue(c)) == LowerDigit(c)
  {
    DigitOfValue(LowerDigit(c));
  }

  lemma LowerPair(s: string)
    requires |s| >= 2
    ensures Lower(s) == [LowerDigit(s[0]), LowerDigit(s[1])] + Lower(s[2..])
  {
    assert s[1..][1..] == s[2..];
  }

  lemma EncodeCons(b: Byte, rest: seq<Byte>)
    ensures Encode([b] + rest) == [DigitChar(b / 16), DigitChar(b % 16)] + Encode(rest)
  {
    assert ([b] + rest)[1..] == rest;
  }

  lemma {:induction false} EncodeDecodeDigits(s: string)
    requires AllHex(s) && |s| % 2 == 0
    ensures Encode(DecodeDigits(s)) == Lower(s)
  {
    if s != [] {
      var high, low := DigitValue(s[0]), DigitValue(s[1]);
      var rest := DecodeDigits(s[2..]);
      assert DecodeDigits(s) == [16 * high + low] + rest;
      assert AllHex(s[2..]) by {
        forall i | 0 <= i < |s[2..]| ensures IsHexDigit(s[2..][i]) { assert s[2..][i] == s[i + 2]; }
      }
      EncodeDecodeDigits(s[2..]);
      Nibbles(high, low);
      EncodeCons(16 * high + low, rest);
      DigitOfAnyCase(s[0]);
      DigitOfAnyCase(s[1]);
      LowerPair(s);
    }
  }

  /** The other direction: re-encoding what decoded gives the input with its
      letters in lower case, the canonical form `encode` produces. */
  lemma EncodeDecode(s: string)
    requires Decode(s).Success?
    ensures Encode(Decode(s).value) == Lower(s)
  {
    DecodeSucceedsIff(s);
    EncodeDecodeDigits(s);
  }
}
