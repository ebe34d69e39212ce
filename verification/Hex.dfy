/** Lower-case hexadecimal text of bytes. */
module Hex {
  import opened Words
  import opened Outcomes

  const DIGITS: string := "0123456789abcdef"

  function HexValue(c: char): (v: Option<nat>)
    ensures v.Some? ==> v.value < 16
  {
    if '0' <= c <= '9' then Some(c as nat - '0' as nat)
    else if 'a' <= c <= 'f' then Some(c as nat - 'a' as nat + 10)
    else if 'A' <= c <= 'F' then Some(c as nat - 'A' as nat + 10)
    else None
  }

  lemma HexValueOfDigit(n: nat)
    requires n < 16
    ensures HexValue(DIGITS[n]) == Some(n)
  {
  }

  /** `hex.EncodeToString`. */
  function EncodeHex(b: Bytes): (s: string)
    ensures |s| == 2 * |b|
  {
    if b == [] then "" else [DIGITS[b[0] / 16], DIGITS[b[0] % 16]] + EncodeHex(b[1..])
  }

  /** `hex.DecodeString`: fails on an odd length or on any other character. */
  function DecodeHex(s: string): (b: Option<Bytes>)
    ensures b.Some? ==> 2 * |b.value| == |s|
  {
    if s == "" then Some([])
    else if |s| == 1 then None
    else
      match (HexValue(s[0]), HexValue(s[1]), DecodeHex(s[2..]))
      case (Some(h), Some(l), Some(rest)) => Some([(16 * h + l) as byte] + rest)
      case _ => None
  }

  lemma DecodePair(h: nat, l: nat, t: string)
    requires h < 16 && l < 16
    ensures DecodeHex([DIGITS[h], DIGITS[l]] + t)
         == if DecodeHex(t).Some? then Some([(16 * h + l) as byte] + DecodeHex(t).value) else None
  {
    HexValueOfDigit(h);
    HexValueOfDigit(l);
    DecodeTwo(DIGITS[h], DIGITS[l], h, l, t);
  }

  lemma DecodeTwo(c: char, d: char, h: nat, l: nat, t: string)
    requires HexValue(c) == Some(h) && HexValue(d) == Some(l)
    ensures h < 16 && l < 16
    ensures DecodeHex([c, d] + t)
         == if DecodeHex(t).Some? then Some([(16 * h + l) as byte] + DecodeHex(t).value) else None
  {
    hide HexValue;
    var s := [c, d] + t;
    assert s[0] == c && s[1] == d && s[2..] == t;
  }

  lemma {:induction false} HexRoundTrip(b: Bytes)
    ensures DecodeHex(EncodeHex(b)) == Some(b)
  {
    hide HexValue, DecodeHex;
    if b == [] {
      NothingDecodes();
    } else {
      var h, l := (b[0] / 16) as nat, (b[0] % 16) as nat;
      HexRoundTrip(b[1..]);
      DecodePair(h, l, EncodeHex(b[1..]));
      assert (16 * h + l) as byte == b[0];
      assert b == [b[0]] + b[1..];
    }
  }

  lemma NothingDecodes()
    ensures DecodeHex(EncodeHex([])) == Some([])
  {
  }

  // ---------- which texts decode, and to what ----------

  predicate IsHexDigit(c: char) {
    '0' <= c <= '9' || 'a' <= c <= 'f' || 'A' <= c <= 'F'
  }

  predicate AllHexDigits(s: string) {
    forall i :: 0 <= i < |s| ==> IsHexDigit(s[i])
  }

  function Lower(c: char): char {
    if 'A' <= c <= 'F' then (c as int + 32) as char else c
  }

  function LowerCase(s: string): (t: string)
    ensures |t| == |s| && forall i :: 0 <= i < |s| ==> t[i] == Lower(s[i])
  {
    seq(|s|, i requires 0 <= i < |s| => Lower(s[i]))
  }

  lemma DigitDecodes(c: char)
    ensures HexValue(c).Some? <==> IsHexDigit(c)
    ensures IsHexDigit(c) ==> DIGITS[HexValue(c).value] == Lower(c)
  {
  }

  lemma EncodePair(h: nat, l: nat, rest: Bytes)
    requires h < 16 && l < 16
    ensures EncodeHex([(16 * h + l) as byte] + rest) == [DIGITS[h], DIGITS[l]] + EncodeHex(rest)
  {
    var b := (16 * h + l) as byte;
    assert (b / 16) as nat == h && (b % 16) as nat == l;
    assert ([b] + rest)[1..] == rest;
  }

  predicate DecodesAs(s: string, b: Option<Bytes>) {
    && (b.Some? <==> |s| % 2 == 0 && AllHexDigits(s))
    && (b.Some? ==> EncodeHex(b.value) == LowerCase(s))
  }

  lemma LowerCaseOfPair(c: char, d: char, s: string)
    ensures LowerCase([c, d] + s) == [Lower(c), Lower(d)] + LowerCase(s)
    ensures AllHexDigits([c, d] + s) <==> IsHexDigit(c) && IsHexDigit(d) && AllHexDigits(s)
  {
    hide Lower, IsHexDigit;
    var t := [c, d] + s;
    assert t[0] == c && t[1] == d && t[2..] == s;
    assert forall i :: 0 <= i < |s| ==> s[i] == t[i + 2];
  }

  lemma PairDecodes(c: char, d: char, s: string)
    requires DecodesAs(s, DecodeHex(s))
    ensures DecodesAs([c, d] + s, DecodeHex([c, d] + s))
  {
    hide HexValue, IsHexDigit, Lower, EncodeHex, AllHexDigits, LowerCase;
    var t := [c, d] + s;
    assert t[2..] == s && t[0] == c && t[1] == d;
    DigitDecodes(c);
    DigitDecodes(d);
    LowerCaseOfPair(c, d, s);
    if HexValue(c).Some? && HexValue(d).Some? && DecodeHex(s).Some? {
      EncodePair(HexValue(c).value, HexValue(d).value, DecodeHex(s).value);
    }
  }

  /** Text decodes exactly when it is pairs of hexadecimal digits, and then spells its bytes up to case. */
  lemma {:induction false} DecodesExactly(s: string)
    ensures DecodeHex(s).Some? <==> |s| % 2 == 0 && AllHexDigits(s)
    ensures DecodeHex(s).Some? ==> EncodeHex(DecodeHex(s).value) == LowerCase(s)
  {
    hide HexValue, IsHexDigit, Lower, EncodeHex;
    if s == "" {
      NothingEncodes();
    } else if |s| > 1 {
      DecodesExactly(s[2..]);
      PairDecodes(s[0], s[1], s[2..]);
      assert s == [s[0], s[1]] + s[2..];
    }
  }

  lemma NothingEncodes()
    ensures EncodeHex([]) == ""
  {
  }

  lemma LowerIsHexDigit(c: char)
    ensures IsHexDigit(Lower(c)) ==> IsHexDigit(c)
  {
  }

  lemma {:induction false} EncodesDigits(b: Bytes)
    ensures AllHexDigits(EncodeHex(b))
  {
    if b != [] {
      EncodesDigits(b[1..]);
    }
  }
}
