/**
 Machine words and bytes.

 Go's `uint32` is modelled as a bounded integer where the code counts with it and
 as `bv32` where the code shifts, rotates and xors it.  `Bits` is the bridge.
 */
module Words {

  const TWO_32: nat := 0x1_0000_0000
  const TWO_64: nat := 0x1_0000_0000_0000_0000

  newtype byte = x: int | 0 <= x < 256
  newtype u32 = x: int | 0 <= x < TWO_32

  type Bytes = seq<byte>

  /** `binary.LittleEndian.Uint32`. */
  function FromLittleEndian(b0: byte, b1: byte, b2: byte, b3: byte): (w: u32) {
    (b0 as int + 0x100 * b1 as int + 0x1_0000 * b2 as int + 0x100_0000 * b3 as int) as u32
  }

  /** Octet `k` of a word, least significant first. */
  function Octet(w: u32, k: nat): (b: byte)
    requires k < 4
  {
    var n := w as int;
    if k == 0 then (n % 0x100) as byte
    else if k == 1 then (n / 0x100 % 0x100) as byte
    else if k == 2 then (n / 0x100 / 0x100 % 0x100) as byte
    else (n / 0x100 / 0x100 / 0x100) as byte
  }

  function Join(b0: bv8, b1: bv8, b2: bv8, b3: bv8): bv32 {
    (b3 as bv32 << 24) | (b2 as bv32 << 16) | (b1 as bv32 << 8) | b0 as bv32
  }

  function ByteBits(x: byte): (v: bv8) {
    (NibbleBits(x as int / 16) as bv8 << 4) | NibbleBits(x as int % 16) as bv8
  }

  /** The bit pattern of a word. */
  function Bits(w: u32): (v: bv32) {
    Join(ByteBits(Octet(w, 0)), ByteBits(Octet(w, 1)), ByteBits(Octet(w, 2)), ByteBits(Octet(w, 3)))
  }

  /** The octets of a bit pattern, least significant first. */
  function LittleEndian(v: bv32): (s: Bytes)
    ensures |s| == 4
  {
    [((v & 0xff) as bv8) as byte,
     (((v >> 8) & 0xff) as bv8) as byte,
     (((v >> 16) & 0xff) as bv8) as byte,
     ((v >> 24) as bv8) as byte]
  }

  /** The number that a bit pattern stands for. */
  function WordOf(v: bv32): (w: u32) {
    var b := LittleEndian(v);
    FromLittleEndian(b[0], b[1], b[2], b[3])
  }

  /** Addition of `uint32` wraps around. */
  function AddWords(a: u32, b: u32): (w: u32) {
    ((a as int + b as int) % TWO_32) as u32
  }

  lemma JoinInjective(a0: bv8, a1: bv8, a2: bv8, a3: bv8, b0: bv8, b1: bv8, b2: bv8, b3: bv8)
    requires Join(a0, a1, a2, a3) == Join(b0, b1, b2, b3)
    ensures a0 == b0 && a1 == b1 && a2 == b2 && a3 == b3
  {
  }

  lemma OctetsDetermineWord(w: u32)
    ensures FromLittleEndian(Octet(w, 0), Octet(w, 1), Octet(w, 2), Octet(w, 3)) == w
  {
  }

  function NibbleBits(n: int): (v: bv4)
    requires 0 <= n < 16
  {
    n as bv4
  }

  lemma NibbleBitsInjective(m: int, n: int)
    requires 0 <= m < 16 && 0 <= n < 16 && NibbleBits(m) == NibbleBits(n)
    ensures m == n
  {
    assert NibbleBits(m) as int == m;
    assert NibbleBits(n) as int == n;
  }

  lemma NibblesInjective(h1: bv4, l1: bv4, h2: bv4, l2: bv4)
    requires ((h1 as bv8 << 4) | l1 as bv8) == ((h2 as bv8 << 4) | l2 as bv8)
    ensures h1 == h2 && l1 == l2
  {
  }

  lemma ByteBitsInjective(x: byte, y: byte)
    requires ByteBits(x) == ByteBits(y)
    ensures x == y
  {
    var m, n := x as int, y as int;
    NibblesInjective(NibbleBits(m / 16), NibbleBits(m % 16), NibbleBits(n / 16), NibbleBits(n % 16));
    NibbleBitsInjective(m / 16, n / 16);
    NibbleBitsInjective(m % 16, n % 16);
  }

  /** Distinct words have distinct bit patterns. */
  lemma BitsInjective(v: u32, w: u32)
    requires Bits(v) == Bits(w)
    ensures v == w
  {
    JoinInjective(
      ByteBits(Octet(v, 0)), ByteBits(Octet(v, 1)), ByteBits(Octet(v, 2)), ByteBits(Octet(v, 3)),
      ByteBits(Octet(w, 0)), ByteBits(Octet(w, 1)), ByteBits(Octet(w, 2)), ByteBits(Octet(w, 3)));
    ByteBitsInjective(Octet(v, 0), Octet(w, 0));
    ByteBitsInjective(Octet(v, 1), Octet(w, 1));
    ByteBitsInjective(Octet(v, 2), Octet(w, 2));
    ByteBitsInjective(Octet(v, 3), Octet(w, 3));
    OctetsDetermineWord(v);
    OctetsDetermineWord(w);
  }

  lemma SplitJoin(b0: bv8, b1: bv8, b2: bv8, b3: bv8)
    ensures var v := Join(b0, b1, b2, b3);
            && (v & 0xff) as bv8 == b0 && ((v >> 8) & 0xff) as bv8 == b1
            && ((v >> 16) & 0xff) as bv8 == b2 && (v >> 24) as bv8 == b3
  {
  }

  lemma NibblesOfByte(h: bv4, l: bv4)
    ensures ((h as bv8 << 4) | l as bv8) as int == 16 * (h as int) + l as int
  {
  }

  lemma NibbleNumber(n: int)
    requires 0 <= n < 16
    ensures NibbleBits(n) as int == n
  {
  }

  lemma ByteNumber(x: byte)
    ensures ByteBits(x) as int == x as int
  {
    hide NibbleBits;
    var h, l := NibbleBits(x as int / 16), NibbleBits(x as int % 16);
    NibblesOfByte(h, l);
    NibbleNumber(x as int / 16);
    NibbleNumber(x as int % 16);
  }

  /** The number of a word's bit pattern is the word. */
  lemma WordOfBits(w: u32)
    ensures WordOf(Bits(w)) == w
  {
    hide ByteBits, Join, Octet;
    var b0, b1, b2, b3 := Octet(w, 0), Octet(w, 1), Octet(w, 2), Octet(w, 3);
    SplitJoin(ByteBits(b0), ByteBits(b1), ByteBits(b2), ByteBits(b3));
    ByteNumber(b0);
    ByteNumber(b1);
    ByteNumber(b2);
    ByteNumber(b3);
    OctetsDetermineWord(w);
  }
}
