/** The four base64 encodings that the PAT issuer may meet, as `encoding/base64` implements them. */
module Base64 {
  import opened Words
  import opened Outcomes

  // ---------- bytes and six-bit digits ----------

  type Digits = s: seq<nat> | forall i :: 0 <= i < |s| ==> s[i] < 64 witness []

  function First(x: byte): (d: nat) ensures d < 64 { x as nat / 4 }
  function Second(x: byte, y: byte): (d: nat) ensures d < 64 { x as nat % 4 * 16 + y as nat / 16 }
  function Third(y: byte, z: byte): (d: nat) ensures d < 64 { y as nat % 16 * 4 + z as nat / 64 }
  function Fourth(z: byte): (d: nat) ensures d < 64 { z as nat % 64 }

  function ToDigits(b: Bytes): (d: Digits)
    decreases |b|
  {
    if |b| == 0 then []
    else if |b| == 1 then [First(b[0]), Second(b[0], 0)]
    else if |b| == 2 then [First(b[0]), Second(b[0], b[1]), Third(b[1], 0)]
    else [First(b[0]), Second(b[0], b[1]), Third(b[1], b[2]), Fourth(b[2])] + ToDigits(b[3..])
  }

  function Byte1(c: nat, d: nat): byte requires c < 64 && d < 64 { (c * 4 + d / 16) as byte }
  function Byte2(c: nat, d: nat): byte requires c < 64 && d < 64 { (c % 16 * 16 + d / 4) as byte }
  function Byte3(c: nat, d: nat): byte requires c < 64 && d < 64 { (c % 4 * 64 + d) as byte }

  /** Leftover bits of the last digit are dropped; a single leftover digit is an error. */
  function FromDigits(d: Digits): (b: Option<Bytes>)
    decreases |d|
  {
    if |d| == 0 then Some([])
    else if |d| == 1 then None
    else if |d| == 2 then Some([Byte1(d[0], d[1])])
    else if |d| == 3 then Some([Byte1(d[0], d[1]), Byte2(d[1], d[2])])
    else
      match FromDigits(d[4..])
      case None => None
      case Some(rest) => Some([Byte1(d[0], d[1]), Byte2(d[1], d[2]), Byte3(d[2], d[3])] + rest)
  }

  /** The digits of one group of three bytes give the bytes back. */
  lemma GroupRoundTrip(x: byte, y: byte, z: byte)
    ensures Byte1(First(x), Second(x, y)) == x
    ensures Byte2(Second(x, y), Third(y, z)) == y
    ensures Byte3(Third(y, z), Fourth(z)) == z
  {
    assert Second(x, y) / 16 == x as nat % 4 && Second(x, y) % 16 == y as nat / 16;
    assert Third(y, z) / 4 == y as nat % 16 && Third(y, z) % 4 == z as nat / 64;
  }

  lemma {:induction false} DigitsRoundTrip(b: Bytes)
    ensures FromDigits(ToDigits(b)) == Some(b)
    decreases |b|
  {
    hide First, Second, Third, Fourth, Byte1, Byte2, Byte3;
    if |b| == 1 {
      GroupRoundTrip(b[0], 0, 0);
      assert b == [b[0]];
    } else if |b| == 2 {
      GroupRoundTrip(b[0], b[1], 0);
      assert b == [b[0], b[1]];
    } else if |b| >= 3 {
      GroupRoundTrip(b[0], b[1], b[2]);
      DigitsRoundTrip(b[3..]);
      assert ToDigits(b)[4..] == ToDigits(b[3..]);
      assert b == [b[0], b[1], b[2]] + b[3..];
    }
  }

  /** There is never a single leftover digit. */
  lemma {:induction false} NoSingleLeftover(b: Bytes)
    ensures |ToDigits(b)| % 4 != 1
    decreases |b|
  {
    hide First, Second, Third, Fourth;
    if |b| >= 3 {
      NoSingleLeftover(b[3..]);
    }
  }

  // ---------- digits and characters ----------

  datatype Encoding = Encoding(url: bool, padded: bool)

  const RAW_URL: Encoding := Encoding(true, false)
  const URL: Encoding := Encoding(true, true)
  const RAW_STD: Encoding := Encoding(false, false)
  const STD: Encoding := Encoding(false, true)

  function Symbol(url: bool, n: nat): (c: char)
    requires n < 64
  {
    if n < 26 then ('A' as int + n) as char
    else if n < 52 then ('a' as int + n - 26) as char
    else if n < 62 then ('0' as int + n - 52) as char
    else if n == 62 then (if url then '-' else '+')
    else (if url then '_' else '/')
  }

  function Digit(url: bool, c: char): (n: Option<nat>)
    ensures n.Some? ==> n.value < 64
  {
    if 'A' <= c <= 'Z' then Some(c as int - 'A' as int)
    else if 'a' <= c <= 'z' then Some(c as int - 'a' as int + 26)
    else if '0' <= c <= '9' then Some(c as int - '0' as int + 52)
    else if c == (if url then '-' else '+') then Some(62)
    else if c == (if url then '_' else '/') then Some(63)
    else None
  }

  /** A symbol reads back as its digit, and in the other alphabet as the same digit or not at all. */
  lemma SymbolRoundTrip(url: bool, other: bool, n: nat)
    requires n < 64
    ensures Digit(url, Symbol(url, n)) == Some(n)
    ensures Digit(other, Symbol(url, n)) == Some(n) || Digit(other, Symbol(url, n)) == None
    ensures var c := Symbol(url, n); c != '=' && c != '\r' && c != '\n' && c != '.' && c != ':'
  {
  }

  function Symbols(url: bool, d: Digits): (s: string)
    ensures |s| == |d|
  {
    seq(|d|, i requires 0 <= i < |d| => Symbol(url, d[i]))
  }

  function DigitsOf(url: bool, s: string): (d: Option<Digits>)
    ensures d.Some? ==> |d.value| == |s| && forall i :: 0 <= i < |s| ==> Digit(url, s[i]) == Some(d.value[i])
    ensures d.None? ==> exists i :: 0 <= i < |s| && Digit(url, s[i]) == None
  {
    if s == "" then Some([])
    else
      match (DigitsOf(url, s[..|s| - 1]), Digit(url, s[|s| - 1]))
      case (Some(d), Some(n)) => Some(d + [n])
      case _ => None
  }

  lemma SymbolsRoundTrip(url: bool, other: bool, d: Digits)
    ensures DigitsOf(url, Symbols(url, d)) == Some(d)
    ensures DigitsOf(other, Symbols(url, d)) == Some(d) || DigitsOf(other, Symbols(url, d)) == None
  {
    hide Digit, Symbol;
    var s := Symbols(url, d);
    forall i | 0 <= i < |d| ensures Digit(url, s[i]) == Some(d[i])
      && (Digit(other, s[i]) == Some(d[i]) || Digit(other, s[i]) == None) {
      SymbolRoundTrip(url, other, d[i]);
    }
    var r, o := DigitsOf(url, s), DigitsOf(other, s);
    assert r.Some? && r.value == d;
    assert o.Some? ==> o.value == d;
  }

  // ---------- encoding and decoding ----------

  function Padding(e: Encoding, digits: nat): (p: string) {
    if !e.padded then "" else if digits % 4 == 2 then "==" else if digits % 4 == 3 then "=" else ""
  }

  function Encode(e: Encoding, b: Bytes): (s: string) {
    var d := ToDigits(b);
    Symbols(e.url, d) + Padding(e, |d|)
  }

  /** Go's decoder skips line breaks wherever they are. */
  function WithoutLineBreaks(s: string): (t: string) {
    if s == "" then ""
    else
      var before, c := WithoutLineBreaks(s[..|s| - 1]), s[|s| - 1];
      if c == '\r' || c == '\n' then before else before + [c]
  }

  /** The body that remains once the padding has been checked and removed. */
  function Unpadded(e: Encoding, t: string): (s: Option<string>)
    ensures s.Some? && !e.padded ==> s.value == t
  {
    var n := |t|;
    if !e.padded then Some(t)
    else if n % 4 != 0 then None
    else if n >= 4 && t[n - 2] == '=' && t[n - 1] == '=' then Some(t[..n - 2])
    else if n >= 4 && t[n - 1] == '=' then Some(t[..n - 1])
    else Some(t)
  }

  function Decode(e: Encoding, s: string): (b: Option<Bytes>) {
    match Unpadded(e, WithoutLineBreaks(s))
    case None => None
    case Some(body) =>
      match DigitsOf(e.url, body)
      case None => None
      case Some(d) => FromDigits(d)
  }

  lemma {:induction false} NoLineBreaks(s: string)
    requires forall i :: 0 <= i < |s| ==> s[i] != '\r' && s[i] != '\n'
    ensures WithoutLineBreaks(s) == s
  {
    if s != "" {
      NoLineBreaks(s[..|s| - 1]);
    }
  }

  predicate IsPlain(c: char) {
    c != '\r' && c != '\n' && c != '.' && c != ':'
  }

  /** Encoded text never contains a separator or a line break. */
  lemma EncodedIsPlain(e: Encoding, b: Bytes)
    ensures forall i :: 0 <= i < |Encode(e, b)| ==> IsPlain(Encode(e, b)[i])
  {
    hide Symbol, ToDigits;
    var d := ToDigits(b);
    forall i | 0 <= i < |d| ensures IsPlain(Symbols(e.url, d)[i]) && Symbols(e.url, d)[i] != '=' {
      SymbolRoundTrip(e.url, e.url, d[i]);
    }
  }

  lemma BodySymbolsAreNotPadding(url: bool, d: Digits)
    ensures forall i :: 0 <= i < |d| ==> Symbols(url, d)[i] != '='
  {
    hide Symbol;
    forall i | 0 <= i < |d| ensures Symbols(url, d)[i] != '=' {
      SymbolRoundTrip(url, url, d[i]);
    }
  }

  lemma PaddingIsNoDigit(url: bool)
    ensures Digit(url, '=') == None
  {
  }

  lemma PaddedBody(e: Encoding, s: string)
    requires e.padded && |s| % 4 != 1 && forall i :: 0 <= i < |s| ==> s[i] != '='
    ensures Unpadded(e, s + Padding(e, |s|)) == Some(s)
  {
    var t := s + Padding(e, |s|);
    assert t[..|s|] == s;
    if |s| % 4 == 3 {
      assert t[|t| - 2] == s[|s| - 1] && t[|t| - 1] == '=';
    } else if |s| % 4 == 2 {
      assert t[|t| - 2] == '=' && t[|t| - 1] == '=';
    } else {
      assert t == s;
    }
  }

  /** Removing padding gives the symbols back, or fails, or leaves a padding character behind. */
  lemma UnpaddedEncoding(other: Encoding, e: Encoding, b: Bytes)
    ensures var d := ToDigits(b);
            var u := Unpadded(other, Encode(e, b));
            u == Some(Symbols(e.url, d)) || u == None || (u.Some? && '=' in u.value)
    ensures Unpadded(e, Encode(e, b)) == Some(Symbols(e.url, ToDigits(b)))
  {
    hide ToDigits, Symbols, Padding;
    var d := ToDigits(b);
    var s := Symbols(e.url, d);
    BodySymbolsAreNotPadding(e.url, d);
    NoSingleLeftover(b);
    PaddingCases(e, |d|);
    assert s + "" == s;
    if e.padded {
      PaddedBody(e, s);
    }
    if other.padded && !e.padded {
      assert Encode(e, b) == s;
      if |s| % 4 == 0 {
        PaddedBody(other, s);
        PaddingCases(other, |s|);
      }
    }
    if other.padded && e.padded {
      assert Unpadded(other, Encode(e, b)) == Unpadded(e, Encode(e, b));
    }
  }

  lemma PaddingCases(e: Encoding, n: nat)
    ensures !e.padded || n % 4 == 0 ==> Padding(e, n) == ""
    ensures Padding(e, n) == "" || '=' in Padding(e, n)
  {
  }

  /** Any of the four decoders either rejects an encoded text or recovers its bytes; the matching one recovers them. */
  lemma DecodersAgree(other: Encoding, e: Encoding, b: Bytes)
    ensures Decode(e, Encode(e, b)) == Some(b)
    ensures Decode(other, Encode(e, b)) == Some(b) || Decode(other, Encode(e, b)) == None
  {
    hide ToDigits, FromDigits, Symbols, Encode, Digit, Unpadded, WithoutLineBreaks, DigitsOf;
    var d, t := ToDigits(b), Encode(e, b);
    EncodedIsPlain(e, b);
    NoLineBreaks(t);
    DigitsRoundTrip(b);
    SymbolsRoundTrip(e.url, other.url, d);
    UnpaddedEncoding(other, e, b);
    PaddingIsNotDecoded(other, Unpadded(other, t));
  }

  lemma PaddingIsNotDecoded(e: Encoding, body: Option<string>)
    ensures body.Some? && '=' in body.value ==> DigitsOf(e.url, body.value) == None
  {
    PaddingIsNoDigit(e.url);
  }

  /** Vectors of section 10 of RFC 4648, and one that tells the two alphabets apart. */
  lemma Examples()
    ensures Encode(STD, [0x66]) == "Zg==" && Encode(RAW_STD, [0x66]) == "Zg"
    ensures Encode(STD, [0x66, 0x6f]) == "Zm8=" && Encode(STD, [0x66, 0x6f, 0x6f]) == "Zm9v"
    ensures Encode(STD, [0xfb, 0xff]) == "+/8=" && Encode(URL, [0xfb, 0xff]) == "-_8="
    ensures Encode(RAW_URL, [0xfb, 0xff]) == "-_8"
  {
  }
}
