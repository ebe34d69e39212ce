/**
 The test vectors of RFC 8439 as theorems, and what a block is for every state.

 The states between the rounds are written out, so that each quarter round is one small calculation.
 */
module ChaChaVectors {
  import opened Words
  import opened ChaChaBlock

  // ---------- ten double rounds ----------

  function Double(s: seq<bv32>): (r: seq<bv32>)
    ensures |r| == |s|
  {
    DoubleRound(Forward(ARX))(s)
  }

  /** Ten double rounds, written out. */
  function TenDoubleRounds(s: seq<bv32>): (r: seq<bv32>)
    ensures |r| == |s|
  {
    Double(Double(Double(Double(Double(Double(Double(Double(Double(Double(s))))))))))
  }

  lemma TenTimes<S>(h: S -> S, s: S)
    ensures Iterate(h, s, 10) == h(h(h(h(h(h(h(h(h(h(s))))))))))
  {
    assert Iterate(h, s, 1) == h(Iterate(h, s, 0));
    assert Iterate(h, s, 2) == h(Iterate(h, s, 1));
    assert Iterate(h, s, 3) == h(Iterate(h, s, 2));
    assert Iterate(h, s, 4) == h(Iterate(h, s, 3));
    assert Iterate(h, s, 5) == h(Iterate(h, s, 4));
    assert Iterate(h, s, 6) == h(Iterate(h, s, 5));
    assert Iterate(h, s, 7) == h(Iterate(h, s, 6));
    assert Iterate(h, s, 8) == h(Iterate(h, s, 7));
    assert Iterate(h, s, 9) == h(Iterate(h, s, 8));
    assert Iterate(h, s, 10) == h(Iterate(h, s, 9));
  }

  lemma PermuteIsTenDoubleRounds(s: seq<bv32>)
    ensures Permute(s) == TenDoubleRounds(s)
  {
    hide DoubleRound, Iterate;
    TenTimes(DoubleRound(Forward(ARX)), s);
  }

  /**
   For every state, the four bytes of output word `i` spell the sum modulo 2^32 of word `i` after ten double
   rounds and word `i` of the state.
   */
  lemma BlockWord(s: seq<u32>, i: nat)
    requires |s| == 16 && i < 16
    ensures NumberAt(Block(s), i) == (WordOf(TenDoubleRounds(BitsOf(s))[i]) as int + s[i] as int) % 0x1_0000_0000
  {
    hide TenDoubleRounds, WordOf, Octet, FromLittleEndian, Permute, Serialize;
    PermuteIsTenDoubleRounds(BitsOf(s));
    var x := OutputWords(s);
    OctetsDetermineWord(x[i]);
    BytesAt(x, i);
  }

  /** The number that four bytes of a block spell, least significant first. */
  function NumberAt(b: Bytes, i: nat): int
    requires |b| == 64 && i < 16
  {
    FromLittleEndian(b[4 * i], b[4 * i + 1], b[4 * i + 2], b[4 * i + 3]) as int
  }

  // ---------- one double round on written-out states ----------

  lemma ColumnsGive<T>(f: Quad<T> -> Quad<T>, s: seq<T>, m: seq<T>)
    requires |s| == 16 && |m| == 16
    requires f(Quad(s[0], s[4], s[8], s[12])) == Quad(m[0], m[4], m[8], m[12])
    requires f(Quad(s[1], s[5], s[9], s[13])) == Quad(m[1], m[5], m[9], m[13])
    requires f(Quad(s[2], s[6], s[10], s[14])) == Quad(m[2], m[6], m[10], m[14])
    requires f(Quad(s[3], s[7], s[11], s[15])) == Quad(m[3], m[7], m[11], m[15])
    ensures ColumnMap(f, s) == m
  {
  }

  lemma DiagonalsGive<T>(f: Quad<T> -> Quad<T>, s: seq<T>, m: seq<T>)
    requires |s| == 16 && |m| == 16
    requires f(Quad(s[0], s[5], s[10], s[15])) == Quad(m[0], m[5], m[10], m[15])
    requires f(Quad(s[1], s[6], s[11], s[12])) == Quad(m[1], m[6], m[11], m[12])
    requires f(Quad(s[2], s[7], s[8], s[13])) == Quad(m[2], m[7], m[8], m[13])
    requires f(Quad(s[3], s[4], s[9], s[14])) == Quad(m[3], m[4], m[9], m[14])
    ensures DiagonalMap(f, s) == m
  {
  }

  lemma DoubleGives(s: seq<bv32>, m: seq<bv32>, t: seq<bv32>)
    requires |s| == 16 && |m| == 16
    requires ColumnMap(Forward(ARX), s) == m && DiagonalMap(Forward(ARX), m) == t
    ensures Double(s) == t
  {
    hide ColumnMap, DiagonalMap;
  }

  function Turn(a: bv32, b: bv32, c: bv32, d: bv32): Quad<bv32> {
    Forward(ARX)(Quad(a, b, c, d))
  }

  // ---------- section 2.3.2 of RFC 8439 ----------

  const S0: seq<bv32> := [
    0x61707865, 0x3320646e, 0x79622d32, 0x6b206574,
    0x03020100, 0x07060504, 0x0b0a0908, 0x0f0e0d0c,
    0x13121110, 0x17161514, 0x1b1a1918, 0x1f1e1d1c,
    0x00000001, 0x09000000, 0x4a000000, 0x00000000]

  const S1: seq<bv32> := [
    0xcd52e917, 0x85ab03b4, 0xb3457395, 0xf96de7dd,
    0xc4b7cd22, 0x5c2e187a, 0xc95eb461, 0x316c801a,
    0x7bf7d740, 0x7eddd644, 0xf1a1bdf5, 0x761246ca,
    0x6b0d58a3, 0x6798471a, 0xd737f167, 0xf173888d]

  const S2: seq<bv32> := [
    0xcf1a7584, 0x048927ec, 0x54051fda, 0xc244ff28,
    0x901d2f40, 0x7974b81c, 0x378dcfb4, 0xcd47fd0e,
    0x2dafb216, 0x27c89cd6, 0xcd3c9aa0, 0x79fc89c7,
    0x10aef18d, 0x16218765, 0x68f76705, 0x04d6ee22]

  const S3: seq<bv32> := [
    0x03a14032, 0x66b15927, 0x9d6b6b42, 0xb84c4109,
    0xa7143ae0, 0xa09b33dd, 0xa5daaf88, 0x2fd91a73,
    0xc90c6b18, 0x5a202413, 0xc20e01b6, 0x72cd6b74,
    0xba35d777, 0xb360f1bf, 0x8178315b, 0x2cd11b1a]

  const S4: seq<bv32> := [
    0x9a2d3589, 0x0b23fc4e, 0x40af3b6b, 0xceea8144,
    0x0a1bffc6, 0x5e5993f7, 0x9904c2e7, 0x0d334718,
    0xe46c6354, 0xc9503229, 0x04fef5aa, 0xf8933f72,
    0x2687d476, 0x54e65231, 0x3594ffc5, 0x2b3bb2ca]

  const S5: seq<bv32> := [
    0xc53318c5, 0xca325d96, 0x7e7d11cb, 0x3404e2ca,
    0x26d7cf73, 0x6088d379, 0xc0f0e9bd, 0xe310cdb9,
    0xae2ca8db, 0x42f67c72, 0x71669aca, 0x975c171d,
    0x9e5ec228, 0x7d85a9f3, 0x201d0756, 0x63fa6953]

  const S6: seq<bv32> := [
    0x04a3131a, 0x66176309, 0x0415bab1, 0x61b880a2,
    0x36cc86c7, 0xbf8a4465, 0xf77dd720, 0xfc0bdc90,
    0x07d13aca, 0xeb0be9af, 0x61599491, 0x918512dc,
    0x33b6686d, 0x795cc671, 0xc0049972, 0xa0a81bde]

  const S7: seq<bv32> := [
    0x9b70f51f, 0x7ea8ac11, 0x21e54da9, 0xca393b2f,
    0x93b08686, 0x6a4c50ae, 0x19212a5a, 0x9b032958,
    0xd839165e, 0x4c06e28a, 0xd3fde99e, 0x26acc13d,
    0xa609f555, 0x2c246549, 0x95151853, 0x2c847a0d]

  const S8: seq<bv32> := [
    0xca5c85dd, 0x93a4f90e, 0xd9f0df58, 0x26dd82dd,
    0x982563f8, 0x712aa9ff, 0x279a61e8, 0x970f72bd,
    0x1c25931a, 0x5180bb10, 0x779c27e7, 0x54077e08,
    0xa9b751fb, 0x382f3ce2, 0x8db1757d, 0xcc38080b]

  const S9: seq<bv32> := [
    0xb6b87de6, 0x9a016148, 0x93859815, 0x4915e6cc,
    0xdc33c122, 0x98e18fa3, 0x5ffbe8fc, 0xf7154b8b,
    0x28c1fcb3, 0xc4b38f9d, 0x83e2f5d7, 0x7d24b98b,
    0x21078b22, 0xb193e7a3, 0xb2f49389, 0x6cde6026]

  const S10: seq<bv32> := [
    0x837778ab, 0xe238d763, 0xa67ae21e, 0x5950bb2f,
    0xc4f2d0c7, 0xfc62bb2f, 0x8fa018fc, 0x3f5ec7b7,
    0x335271c2, 0xf29489f3, 0xeabda8fc, 0x82e46ebd,
    0xd19c12b4, 0xb04e16de, 0x9e83d0cb, 0x4e3c50a2]

  const M0: seq<bv32> := [
    0xabbaa25c, 0x1efa51ea, 0x7354fbdf, 0x83d2dc69,
    0x3a465196, 0x1c7e64f6, 0xb12fb628, 0xf05b6976,
    0x6b3ca454, 0x08eb14b1, 0xbf8a9ac9, 0xe444df3b,
    0xdec62ed2, 0x8862cc77, 0x6e35b345, 0x52a647f1]

  const M1: seq<bv32> := [
    0xe3e1111b, 0xa6291491, 0x5a82b80c, 0x4500fd45,
    0xd65b5b5b, 0xf56af099, 0x4ccc8103, 0xc94d29e2,
    0xe67aec54, 0xf7a52d82, 0xdb470914, 0xdfb40f1d,
    0x7be81c0d, 0x1d92d0fd, 0x13139f8c, 0x7a26ecaa]

  const M2: seq<bv32> := [
    0xa22695f2, 0xa908cf6c, 0xe6ae05b2, 0xfe0ff04b,
    0x1ece4458, 0xe82b726f, 0x5a21ab90, 0x87698c64,
    0xf2d36da6, 0xf4dab980, 0x7baf5573, 0xa78c270d,
    0x6fda6bf7, 0x65a4b0ce, 0x25e6d76e, 0x1b7b11ec]

  const M3: seq<bv32> := [
    0xfecd0838, 0x160ab468, 0x9a0ddf4e, 0xbac7154a,
    0xcedf6624, 0xb11de6c4, 0xbd7810ef, 0xd22b5643,
    0x1d8a33ea, 0x87dc1ca9, 0x89bd34a5, 0x5505ef62,
    0xa818b852, 0xb100446a, 0x9c1d70b1, 0xa1d1befa]

  const M4: seq<bv32> := [
    0x85e7824a, 0x4940cd9e, 0xfbe7684b, 0x7335d03d,
    0x1c133ea1, 0xbba40b0f, 0x9413992a, 0xa4ab2040,
    0xa3a66a86, 0xc0b4754f, 0x771b4ecb, 0x165151a1,
    0xde008464, 0x34f0058b, 0x70846cfa, 0xa3271b09]

  const M5: seq<bv32> := [
    0x9950b826, 0xcac7ccc6, 0x84a67673, 0xdb3109a6,
    0x2121065a, 0xc12bdadb, 0xcae3acd1, 0x594616cb,
    0x19078de2, 0x178ecc02, 0xe6adbdb2, 0x52a9d50e,
    0x40ca72b3, 0x3b9bf852, 0x78690378, 0xe17d4902]

  const M6: seq<bv32> := [
    0x57c5e6da, 0x35ce46a8, 0x0c041bb9, 0xfa91df79,
    0x8e85d82f, 0xb4819d06, 0xb63be200, 0xacd221e4,
    0x434b4749, 0x1d459c00, 0x111cfe2c, 0x55942604,
    0x49ee03a6, 0xd11a5554, 0xa7202e04, 0x7d2215bc]

  const M7: seq<bv32> := [
    0xc0b18aee, 0x087445ba, 0x36e52ad9, 0xa777426a,
    0xdeb54e9c, 0x802c883b, 0x06e86889, 0x3c002680,
    0xa82d65d4, 0x687f11eb, 0xe9d36207, 0x4242ddae,
    0x4103c64e, 0x82816a91, 0xb584ca56, 0xfd0bd2b9]

  const M8: seq<bv32> := [
    0x765c6e9c, 0x5ab09b11, 0x3ee7da04, 0x37c31203,
    0x9046ecaa, 0x7b88d882, 0xb9b577dd, 0x156de7ed,
    0x46fa091e, 0x5117e9b5, 0x862ff22b, 0xa3fcc7a6,
    0x72a5aace, 0x5fa7f1c5, 0xda563e0a, 0x5263d7ca]

  const M9: seq<bv32> := [
    0x8a07ff15, 0x0cadc51c, 0x017c8da9, 0x4afbe5df,
    0x913768fe, 0x442a0c0c, 0x598fe3bb, 0x47d18828,
    0x0a39aedc, 0xc1428029, 0x7b48135f, 0x5a5f1098,
    0x2d4cfe3e, 0xe5466d1b, 0xe4ccdc13, 0x8ac92a18]

  lemma Columns0()
    ensures Turn(0x61707865, 0x03020100, 0x13121110, 0x00000001)
         == Quad(0xabbaa25c, 0x3a465196, 0x6b3ca454, 0xdec62ed2)
    ensures Turn(0x3320646e, 0x07060504, 0x17161514, 0x09000000)
         == Quad(0x1efa51ea, 0x1c7e64f6, 0x08eb14b1, 0x8862cc77)
    ensures Turn(0x79622d32, 0x0b0a0908, 0x1b1a1918, 0x4a000000)
         == Quad(0x7354fbdf, 0xb12fb628, 0xbf8a9ac9, 0x6e35b345)
    ensures Turn(0x6b206574, 0x0f0e0d0c, 0x1f1e1d1c, 0x00000000)
         == Quad(0x83d2dc69, 0xf05b6976, 0xe444df3b, 0x52a647f1)
  {
  }

  lemma Diagonals0()
    ensures Turn(0xabbaa25c, 0x1c7e64f6, 0xbf8a9ac9, 0x52a647f1)
         == Quad(0xcd52e917, 0x5c2e187a, 0xf1a1bdf5, 0xf173888d)
    ensures Turn(0x1efa51ea, 0xb12fb628, 0xe444df3b, 0xdec62ed2)
         == Quad(0x85ab03b4, 0xc95eb461, 0x761246ca, 0x6b0d58a3)
    ensures Turn(0x7354fbdf, 0xf05b6976, 0x6b3ca454, 0x8862cc77)
         == Quad(0xb3457395, 0x316c801a, 0x7bf7d740, 0x6798471a)
    ensures Turn(0x83d2dc69, 0x3a465196, 0x08eb14b1, 0x6e35b345)
         == Quad(0xf96de7dd, 0xc4b7cd22, 0x7eddd644, 0xd737f167)
  {
  }

  lemma Round0()
    ensures Double(S0) == S1
  {
    hide QuarterRound, Double;
    Columns0();
    Diagonals0();
    ColumnsGive(Forward(ARX), S0, M0);
    DiagonalsGive(Forward(ARX), M0, S1);
    DoubleGives(S0, M0, S1);
  }

  lemma Columns1()
    ensures Turn(0xcd52e917, 0xc4b7cd22, 0x7bf7d740, 0x6b0d58a3)
         == Quad(0xe3e1111b, 0xd65b5b5b, 0xe67aec54, 0x7be81c0d)
    ensures Turn(0x85ab03b4, 0x5c2e187a, 0x7eddd644, 0x6798471a)
         == Quad(0xa6291491, 0xf56af099, 0xf7a52d82, 0x1d92d0fd)
    ensures Turn(0xb3457395, 0xc95eb461, 0xf1a1bdf5, 0xd737f167)
         == Quad(0x5a82b80c, 0x4ccc8103, 0xdb470914, 0x13139f8c)
    ensures Turn(0xf96de7dd, 0x316c801a, 0x761246ca, 0xf173888d)
         == Quad(0x4500fd45, 0xc94d29e2, 0xdfb40f1d, 0x7a26ecaa)
  {
  }

  lemma Diagonals1()
    ensures Turn(0xe3e1111b, 0xf56af099, 0xdb470914, 0x7a26ecaa)
         == Quad(0xcf1a7584, 0x7974b81c, 0xcd3c9aa0, 0x04d6ee22)
    ensures Turn(0xa6291491, 0x4ccc8103, 0xdfb40f1d, 0x7be81c0d)
         == Quad(0x048927ec, 0x378dcfb4, 0x79fc89c7, 0x10aef18d)
    ensures Turn(0x5a82b80c, 0xc94d29e2, 0xe67aec54, 0x1d92d0fd)
         == Quad(0x54051fda, 0xcd47fd0e, 0x2dafb216, 0x16218765)
    ensures Turn(0x4500fd45, 0xd65b5b5b, 0xf7a52d82, 0x13139f8c)
         == Quad(0xc244ff28, 0x901d2f40, 0x27c89cd6, 0x68f76705)
  {
  }

  lemma Round1()
    ensures Double(S1) == S2
  {
    hide QuarterRound, Double;
    Columns1();
    Diagonals1();
    ColumnsGive(Forward(ARX), S1, M1);
    DiagonalsGive(Forward(ARX), M1, S2);
    DoubleGives(S1, M1, S2);
  }

  lemma Columns2()
    ensures Turn(0xcf1a7584, 0x901d2f40, 0x2dafb216, 0x10aef18d)
         == Quad(0xa22695f2, 0x1ece4458, 0xf2d36da6, 0x6fda6bf7)
    ensures Turn(0x048927ec, 0x7974b81c, 0x27c89cd6, 0x16218765)
         == Quad(0xa908cf6c, 0xe82b726f, 0xf4dab980, 0x65a4b0ce)
    ensures Turn(0x54051fda, 0x378dcfb4, 0xcd3c9aa0, 0x68f76705)
         == Quad(0xe6ae05b2, 0x5a21ab90, 0x7baf5573, 0x25e6d76e)
    ensures Turn(0xc244ff28, 0xcd47fd0e, 0x79fc89c7, 0x04d6ee22)
         == Quad(0xfe0ff04b, 0x87698c64, 0xa78c270d, 0x1b7b11ec)
  {
  }

  lemma Diagonals2()
    ensures Turn(0xa22695f2, 0xe82b726f, 0x7baf5573, 0x1b7b11ec)
         == Quad(0x03a14032, 0xa09b33dd, 0xc20e01b6, 0x2cd11b1a)
    ensures Turn(0xa908cf6c, 0x5a21ab90, 0xa78c270d, 0x6fda6bf7)
         == Quad(0x66b15927, 0xa5daaf88, 0x72cd6b74, 0xba35d777)
    ensures Turn(0xe6ae05b2, 0x87698c64, 0xf2d36da6, 0x65a4b0ce)
         == Quad(0x9d6b6b42, 0x2fd91a73, 0xc90c6b18, 0xb360f1bf)
    ensures Turn(0xfe0ff04b, 0x1ece4458, 0xf4dab980, 0x25e6d76e)
         == Quad(0xb84c4109, 0xa7143ae0, 0x5a202413, 0x8178315b)
  {
  }

  lemma Round2()
    ensures Double(S2) == S3
  {
    hide QuarterRound, Double;
    Columns2();
    Diagonals2();
    ColumnsGive(Forward(ARX), S2, M2);
    DiagonalsGive(Forward(ARX), M2, S3);
    DoubleGives(S2, M2, S3);
  }

  lemma Columns3()
    ensures Turn(0x03a14032, 0xa7143ae0, 0xc90c6b18, 0xba35d777)
         == Quad(0xfecd0838, 0xcedf6624, 0x1d8a33ea, 0xa818b852)
    ensures Turn(0x66b15927, 0xa09b33dd, 0x5a202413, 0xb360f1bf)
         == Quad(0x160ab468, 0xb11de6c4, 0x87dc1ca9, 0xb100446a)
    ensures Turn(0x9d6b6b42, 0xa5daaf88, 0xc20e01b6, 0x8178315b)
         == Quad(0x9a0ddf4e, 0xbd7810ef, 0x89bd34a5, 0x9c1d70b1)
    ensures Turn(0xb84c4109, 0x2fd91a73, 0x72cd6b74, 0x2cd11b1a)
         == Quad(0xbac7154a, 0xd22b5643, 0x5505ef62, 0xa1d1befa)
  {
  }

  lemma Diagonals3()
    ensures Turn(0xfecd0838, 0xb11de6c4, 0x89bd34a5, 0xa1d1befa)
         == Quad(0x9a2d3589, 0x5e5993f7, 0x04fef5aa, 0x2b3bb2ca)
    ensures Turn(0x160ab468, 0xbd7810ef, 0x5505ef62, 0xa818b852)
         == Quad(0x0b23fc4e, 0x9904c2e7, 0xf8933f72, 0x2687d476)
    ensures Turn(0x9a0ddf4e, 0xd22b5643, 0x1d8a33ea, 0xb100446a)
         == Quad(0x40af3b6b, 0x0d334718, 0xe46c6354, 0x54e65231)
    ensures Turn(0xbac7154a, 0xcedf6624, 0x87dc1ca9, 0x9c1d70b1)
         == Quad(0xceea8144, 0x0a1bffc6, 0xc9503229, 0x3594ffc5)
  {
  }

  lemma Round3()
    ensures Double(S3) == S4
  {
    hide QuarterRound, Double;
    Columns3();
    Diagonals3();
    ColumnsGive(Forward(ARX), S3, M3);
    DiagonalsGive(Forward(ARX), M3, S4);
    DoubleGives(S3, M3, S4);
  }

  lemma Columns4()
    ensures Turn(0x9a2d3589, 0x0a1bffc6, 0xe46c6354, 0x2687d476)
         == Quad(0x85e7824a, 0x1c133ea1, 0xa3a66a86, 0xde008464)
    ensures Turn(0x0b23fc4e, 0x5e5993f7, 0xc9503229, 0x54e65231)
         == Quad(0x4940cd9e, 0xbba40b0f, 0xc0b4754f, 0x34f0058b)
    ensures Turn(0x40af3b6b, 0x9904c2e7, 0x04fef5aa, 0x3594ffc5)
         == Quad(0xfbe7684b, 0x9413992a, 0x771b4ecb, 0x70846cfa)
    ensures Turn(0xceea8144, 0x0d334718, 0xf8933f72, 0x2b3bb2ca)
         == Quad(0x7335d03d, 0xa4ab2040, 0x165151a1, 0xa3271b09)
  {
  }

  lemma Diagonals4()
    ensures Turn(0x85e7824a, 0xbba40b0f, 0x771b4ecb, 0xa3271b09)
         == Quad(0xc53318c5, 0x6088d379, 0x71669aca, 0x63fa6953)
    ensures Turn(0x4940cd9e, 0x9413992a, 0x165151a1, 0xde008464)
         == Quad(0xca325d96, 0xc0f0e9bd, 0x975c171d, 0x9e5ec228)
    ensures Turn(0xfbe7684b, 0xa4ab2040, 0xa3a66a86, 0x34f0058b)
         == Quad(0x7e7d11cb, 0xe310cdb9, 0xae2ca8db, 0x7d85a9f3)
    ensures Turn(0x7335d03d, 0x1c133ea1, 0xc0b4754f, 0x70846cfa)
         == Quad(0x3404e2ca, 0x26d7cf73, 0x42f67c72, 0x201d0756)
  {
  }

  lemma Round4()
    ensures Double(S4) == S5
  {
    hide QuarterRound, Double;
    Columns4();
    Diagonals4();
    ColumnsGive(Forward(ARX), S4, M4);
    DiagonalsGive(Forward(ARX), M4, S5);
    DoubleGives(S4, M4, S5);
  }

  lemma Columns5()
    ensures Turn(0xc53318c5, 0x26d7cf73, 0xae2ca8db, 0x9e5ec228)
         == Quad(0x9950b826, 0x2121065a, 0x19078de2, 0x40ca72b3)
    ensures Turn(0xca325d96, 0x6088d379, 0x42f67c72, 0x7d85a9f3)
         == Quad(0xcac7ccc6, 0xc12bdadb, 0x178ecc02, 0x3b9bf852)
    ensures Turn(0x7e7d11cb, 0xc0f0e9bd, 0x71669aca, 0x201d0756)
         == Quad(0x84a67673, 0xcae3acd1, 0xe6adbdb2, 0x78690378)
    ensures Turn(0x3404e2ca, 0xe310cdb9, 0x975c171d, 0x63fa6953)
         == Quad(0xdb3109a6, 0x594616cb, 0x52a9d50e, 0xe17d4902)
  {
  }

  lemma Diagonals5()
    ensures Turn(0x9950b826, 0xc12bdadb, 0xe6adbdb2, 0xe17d4902)
         == Quad(0x04a3131a, 0xbf8a4465, 0x61599491, 0xa0a81bde)
    ensures Turn(0xcac7ccc6, 0xcae3acd1, 0x52a9d50e, 0x40ca72b3)
         == Quad(0x66176309, 0xf77dd720, 0x918512dc, 0x33b6686d)
    ensures Turn(0x84a67673, 0x594616cb, 0x19078de2, 0x3b9bf852)
         == Quad(0x0415bab1, 0xfc0bdc90, 0x07d13aca, 0x795cc671)
    ensures Turn(0xdb3109a6, 0x2121065a, 0x178ecc02, 0x78690378)
         == Quad(0x61b880a2, 0x36cc86c7, 0xeb0be9af, 0xc0049972)
  {
  }

  lemma Round5()
    ensures Double(S5) == S6
  {
    hide QuarterRound, Double;
    Columns5();
    Diagonals5();
    ColumnsGive(Forward(ARX), S5, M5);
    DiagonalsGive(Forward(ARX), M5, S6);
    DoubleGives(S5, M5, S6);
  }

  lemma Columns6()
    ensures Turn(0x04a3131a, 0x36cc86c7, 0x07d13aca, 0x33b6686d)
         == Quad(0x57c5e6da, 0x8e85d82f, 0x434b4749, 0x49ee03a6)
    ensures Turn(0x66176309, 0xbf8a4465, 0xeb0be9af, 0x795cc671)
         == Quad(0x35ce46a8, 0xb4819d06, 0x1d459c00, 0xd11a5554)
    ensures Turn(0x0415bab1, 0xf77dd720, 0x61599491, 0xc0049972)
         == Quad(0x0c041bb9, 0xb63be200, 0x111cfe2c, 0xa7202e04)
    ensures Turn(0x61b880a2, 0xfc0bdc90, 0x918512dc, 0xa0a81bde)
         == Quad(0xfa91df79, 0xacd221e4, 0x55942604, 0x7d2215bc)
  {
  }

  lemma Diagonals6()
    ensures Turn(0x57c5e6da, 0xb4819d06, 0x111cfe2c, 0x7d2215bc)
         == Quad(0x9b70f51f, 0x6a4c50ae, 0xd3fde99e, 0x2c847a0d)
    ensures Turn(0x35ce46a8, 0xb63be200, 0x55942604, 0x49ee03a6)
         == Quad(0x7ea8ac11, 0x19212a5a, 0x26acc13d, 0xa609f555)
    ensures Turn(0x0c041bb9, 0xacd221e4, 0x434b4749, 0xd11a5554)
         == Quad(0x21e54da9, 0x9b032958, 0xd839165e, 0x2c246549)
    ensures Turn(0xfa91df79, 0x8e85d82f, 0x1d459c00, 0xa7202e04)
         == Quad(0xca393b2f, 0x93b08686, 0x4c06e28a, 0x95151853)
  {
  }

  lemma Round6()
    ensures Double(S6) == S7
  {
    hide QuarterRound, Double;
    Columns6();
    Diagonals6();
    ColumnsGive(Forward(ARX), S6, M6);
    DiagonalsGive(Forward(ARX), M6, S7);
    DoubleGives(S6, M6, S7);
  }

  lemma Columns7()
    ensures Turn(0x9b70f51f, 0x93b08686, 0xd839165e, 0xa609f555)
         == Quad(0xc0b18aee, 0xdeb54e9c, 0xa82d65d4, 0x4103c64e)
    ensures Turn(0x7ea8ac11, 0x6a4c50ae, 0x4c06e28a, 0x2c246549)
         == Quad(0x087445ba, 0x802c883b, 0x687f11eb, 0x82816a91)
    ensures Turn(0x21e54da9, 0x19212a5a, 0xd3fde99e, 0x95151853)
         == Quad(0x36e52ad9, 0x06e86889, 0xe9d36207, 0xb584ca56)
    ensures Turn(0xca393b2f, 0x9b032958, 0x26acc13d, 0x2c847a0d)
         == Quad(0xa777426a, 0x3c002680, 0x4242ddae, 0xfd0bd2b9)
  {
  }

  lemma Diagonals7()
    ensures Turn(0xc0b18aee, 0x802c883b, 0xe9d36207, 0xfd0bd2b9)
         == Quad(0xca5c85dd, 0x712aa9ff, 0x779c27e7, 0xcc38080b)
    ensures Turn(0x087445ba, 0x06e86889, 0x4242ddae, 0x4103c64e)
         == Quad(0x93a4f90e, 0x279a61e8, 0x54077e08, 0xa9b751fb)
    ensures Turn(0x36e52ad9, 0x3c002680, 0xa82d65d4, 0x82816a91)
         == Quad(0xd9f0df58, 0x970f72bd, 0x1c25931a, 0x382f3ce2)
    ensures Turn(0xa777426a, 0xdeb54e9c, 0x687f11eb, 0xb584ca56)
         == Quad(0x26dd82dd, 0x982563f8, 0x5180bb10, 0x8db1757d)
  {
  }

  lemma Round7()
    ensures Double(S7) == S8
  {
    hide QuarterRound, Double;
    Columns7();
    Diagonals7();
    ColumnsGive(Forward(ARX), S7, M7);
    DiagonalsGive(Forward(ARX), M7, S8);
    DoubleGives(S7, M7, S8);
  }

  lemma Columns8()
    ensures Turn(0xca5c85dd, 0x982563f8, 0x1c25931a, 0xa9b751fb)
         == Quad(0x765c6e9c, 0x9046ecaa, 0x46fa091e, 0x72a5aace)
    ensures Turn(0x93a4f90e, 0x712aa9ff, 0x5180bb10, 0x382f3ce2)
         == Quad(0x5ab09b11, 0x7b88d882, 0x5117e9b5, 0x5fa7f1c5)
    ensures Turn(0xd9f0df58, 0x279a61e8, 0x779c27e7, 0x8db1757d)
         == Quad(0x3ee7da04, 0xb9b577dd, 0x862ff22b, 0xda563e0a)
    ensures Turn(0x26dd82dd, 0x970f72bd, 0x54077e08, 0xcc38080b)
         == Quad(0x37c31203, 0x156de7ed, 0xa3fcc7a6, 0x5263d7ca)
  {
  }

  lemma Diagonals8()
    ensures Turn(0x765c6e9c, 0x7b88d882, 0x862ff22b, 0x5263d7ca)
         == Quad(0xb6b87de6, 0x98e18fa3, 0x83e2f5d7, 0x6cde6026)
    ensures Turn(0x5ab09b11, 0xb9b577dd, 0xa3fcc7a6, 0x72a5aace)
         == Quad(0x9a016148, 0x5ffbe8fc, 0x7d24b98b, 0x21078b22)
    ensures Turn(0x3ee7da04, 0x156de7ed, 0x46fa091e, 0x5fa7f1c5)
         == Quad(0x93859815, 0xf7154b8b, 0x28c1fcb3, 0xb193e7a3)
    ensures Turn(0x37c31203, 0x9046ecaa, 0x5117e9b5, 0xda563e0a)
         == Quad(0x4915e6cc, 0xdc33c122, 0xc4b38f9d, 0xb2f49389)
  {
  }

  lemma Round8()
    ensures Double(S8) == S9
  {
    hide QuarterRound, Double;
    Columns8();
    Diagonals8();
    ColumnsGive(Forward(ARX), S8, M8);
    DiagonalsGive(Forward(ARX), M8, S9);
    DoubleGives(S8, M8, S9);
  }

  lemma Columns9()
    ensures Turn(0xb6b87de6, 0xdc33c122, 0x28c1fcb3, 0x21078b22)
         == Quad(0x8a07ff15, 0x913768fe, 0x0a39aedc, 0x2d4cfe3e)
    ensures Turn(0x9a016148, 0x98e18fa3, 0xc4b38f9d, 0xb193e7a3)
         == Quad(0x0cadc51c, 0x442a0c0c, 0xc1428029, 0xe5466d1b)
    ensures Turn(0x93859815, 0x5ffbe8fc, 0x83e2f5d7, 0xb2f49389)
         == Quad(0x017c8da9, 0x598fe3bb, 0x7b48135f, 0xe4ccdc13)
    ensures Turn(0x4915e6cc, 0xf7154b8b, 0x7d24b98b, 0x6cde6026)
         == Quad(0x4afbe5df, 0x47d18828, 0x5a5f1098, 0x8ac92a18)
  {
  }

  lemma Diagonals9()
    ensures Turn(0x8a07ff15, 0x442a0c0c, 0x7b48135f, 0x8ac92a18)
         == Quad(0x837778ab, 0xfc62bb2f, 0xeabda8fc, 0x4e3c50a2)
    ensures Turn(0x0cadc51c, 0x598fe3bb, 0x5a5f1098, 0x2d4cfe3e)
         == Quad(0xe238d763, 0x8fa018fc, 0x82e46ebd, 0xd19c12b4)
    ensures Turn(0x017c8da9, 0x47d18828, 0x0a39aedc, 0xe5466d1b)
         == Quad(0xa67ae21e, 0x3f5ec7b7, 0x335271c2, 0xb04e16de)
    ensures Turn(0x4afbe5df, 0x913768fe, 0xc1428029, 0xe4ccdc13)
         == Quad(0x5950bb2f, 0xc4f2d0c7, 0xf29489f3, 0x9e83d0cb)
  {
  }

  lemma Round9()
    ensures Double(S9) == S10
  {
    hide QuarterRound, Double;
    Columns9();
    Diagonals9();
    ColumnsGive(Forward(ARX), S9, M9);
    DiagonalsGive(Forward(ARX), M9, S10);
    DoubleGives(S9, M9, S10);
  }

  lemma RoundsOfVector()
    ensures TenDoubleRounds(S0) == S10
  {
    hide Double;
    Round0();
    Round1();
    Round2();
    Round3();
    Round4();
    Round5();
    Round6();
    Round7();
    Round8();
    Round9();
  }

  /** Key 00 to 1f. */
  const KEY: Bytes := seq(32, i requires 0 <= i < 32 => i as byte)

  const NONCE: Bytes := [0x00, 0x00, 0x00, 0x09, 0x00, 0x00, 0x00, 0x4a, 0x00, 0x00, 0x00, 0x00]

  const KEY_WORDS: seq<u32> := [0x03020100, 0x07060504, 0x0b0a0908, 0x0f0e0d0c,
    0x13121110, 0x17161514, 0x1b1a1918, 0x1f1e1d1c]

  const WORDS: seq<u32> := CONSTANTS + KEY_WORDS + [1] + [0x09000000, 0x4a000000, 0]

  const SUMS: seq<u32> := [
    0xe4e7f110, 0x15593bd1, 0x1fdd0f50, 0xc47120a3,
    0xc7f4d1c7, 0x0368c033, 0x9aaa2204, 0x4e6cd4c3,
    0x466482d2, 0x09aa9f07, 0x05d7c214, 0xa2028bd9,
    0xd19c12b5, 0xb94e16de, 0xe883d0cb, 0x4e3c50a2]

  const ROW0: Bytes := [
    0x10, 0xf1, 0xe7, 0xe4, 0xd1, 0x3b, 0x59, 0x15, 0x50, 0x0f, 0xdd, 0x1f, 0xa3, 0x20, 0x71, 0xc4]

  const ROW1: Bytes := [
    0xc7, 0xd1, 0xf4, 0xc7, 0x33, 0xc0, 0x68, 0x03, 0x04, 0x22, 0xaa, 0x9a, 0xc3, 0xd4, 0x6c, 0x4e]

  const ROW2: Bytes := [
    0xd2, 0x82, 0x64, 0x46, 0x07, 0x9f, 0xaa, 0x09, 0x14, 0xc2, 0xd7, 0x05, 0xd9, 0x8b, 0x02, 0xa2]

  const ROW3: Bytes := [
    0xb5, 0x12, 0x9c, 0xd1, 0xde, 0x16, 0x4e, 0xb9, 0xcb, 0xd0, 0x83, 0xe8, 0xa2, 0x50, 0x3c, 0x4e]

  /** The serialized block as the RFC prints it. */
  const BLOCK: Bytes := ROW0 + ROW1 + ROW2 + ROW3

  /** The pattern of a word, from its octets. */
  lemma PatternOf(w: u32, b0: byte, b1: byte, b2: byte, b3: byte)
    requires Octet(w, 0) == b0 && Octet(w, 1) == b1 && Octet(w, 2) == b2 && Octet(w, 3) == b3
    ensures Bits(w) == Join(ByteBits(b0), ByteBits(b1), ByteBits(b2), ByteBits(b3))
  {
    hide Join, ByteBits;
  }

  lemma Pattern0()
    ensures Bits(0x61707865) == 0x61707865
  {
    hide Bits;
    PatternOf(0x61707865, 0x65, 0x78, 0x70, 0x61);
  }

  lemma Pattern1()
    ensures Bits(0x3320646e) == 0x3320646e
  {
    hide Bits;
    PatternOf(0x3320646e, 0x6e, 0x64, 0x20, 0x33);
  }

  lemma Pattern2()
    ensures Bits(0x79622d32) == 0x79622d32
  {
    hide Bits;
    PatternOf(0x79622d32, 0x32, 0x2d, 0x62, 0x79);
  }

  lemma Pattern3()
    ensures Bits(0x6b206574) == 0x6b206574
  {
    hide Bits;
    PatternOf(0x6b206574, 0x74, 0x65, 0x20, 0x6b);
  }

  lemma NumbersA()
    ensures WordOf(0x837778ab) == 0x837778ab
    ensures WordOf(0xe238d763) == 0xe238d763
    ensures WordOf(0xa67ae21e) == 0xa67ae21e
    ensures WordOf(0x5950bb2f) == 0x5950bb2f
  {
  }

  lemma SumsA()
    ensures AddWords(0x837778ab, 0x61707865) == 0xe4e7f110
    ensures AddWords(0xe238d763, 0x3320646e) == 0x15593bd1
    ensures AddWords(0xa67ae21e, 0x79622d32) == 0x1fdd0f50
    ensures AddWords(0x5950bb2f, 0x6b206574) == 0xc47120a3
  {
  }

  lemma OctetsA()
    ensures Octet(0xe4e7f110, 0) == 0x10 && Octet(0xe4e7f110, 1) == 0xf1
    ensures Octet(0xe4e7f110, 2) == 0xe7 && Octet(0xe4e7f110, 3) == 0xe4
    ensures Octet(0x15593bd1, 0) == 0xd1 && Octet(0x15593bd1, 1) == 0x3b
    ensures Octet(0x15593bd1, 2) == 0x59 && Octet(0x15593bd1, 3) == 0x15
    ensures Octet(0x1fdd0f50, 0) == 0x50 && Octet(0x1fdd0f50, 1) == 0x0f
    ensures Octet(0x1fdd0f50, 2) == 0xdd && Octet(0x1fdd0f50, 3) == 0x1f
    ensures Octet(0xc47120a3, 0) == 0xa3 && Octet(0xc47120a3, 1) == 0x20
    ensures Octet(0xc47120a3, 2) == 0x71 && Octet(0xc47120a3, 3) == 0xc4
  {
  }

  lemma Pattern4()
    ensures Bits(0x03020100) == 0x03020100
  {
    hide Bits;
    PatternOf(0x03020100, 0x00, 0x01, 0x02, 0x03);
  }

  lemma Pattern5()
    ensures Bits(0x07060504) == 0x07060504
  {
    hide Bits;
    PatternOf(0x07060504, 0x04, 0x05, 0x06, 0x07);
  }

  lemma Pattern6()
    ensures Bits(0x0b0a0908) == 0x0b0a0908
  {
    hide Bits;
    PatternOf(0x0b0a0908, 0x08, 0x09, 0x0a, 0x0b);
  }

  lemma Pattern7()
    ensures Bits(0x0f0e0d0c) == 0x0f0e0d0c
  {
    hide Bits;
    PatternOf(0x0f0e0d0c, 0x0c, 0x0d, 0x0e, 0x0f);
  }

  lemma NumbersB()
    ensures WordOf(0xc4f2d0c7) == 0xc4f2d0c7
    ensures WordOf(0xfc62bb2f) == 0xfc62bb2f
    ensures WordOf(0x8fa018fc) == 0x8fa018fc
    ensures WordOf(0x3f5ec7b7) == 0x3f5ec7b7
  {
  }

  lemma SumsB()
    ensures AddWords(0xc4f2d0c7, 0x03020100) == 0xc7f4d1c7
    ensures AddWords(0xfc62bb2f, 0x07060504) == 0x0368c033
    ensures AddWords(0x8fa018fc, 0x0b0a0908) == 0x9aaa2204
    ensures AddWords(0x3f5ec7b7, 0x0f0e0d0c) == 0x4e6cd4c3
  {
  }

  lemma OctetsB()
    ensures Octet(0xc7f4d1c7, 0) == 0xc7 && Octet(0xc7f4d1c7, 1) == 0xd1
    ensures Octet(0xc7f4d1c7, 2) == 0xf4 && Octet(0xc7f4d1c7, 3) == 0xc7
    ensures Octet(0x0368c033, 0) == 0x33 && Octet(0x0368c033, 1) == 0xc0
    ensures Octet(0x0368c033, 2) == 0x68 && Octet(0x0368c033, 3) == 0x03
    ensures Octet(0x9aaa2204, 0) == 0x04 && Octet(0x9aaa2204, 1) == 0x22
    ensures Octet(0x9aaa2204, 2) == 0xaa && Octet(0x9aaa2204, 3) == 0x9a
    ensures Octet(0x4e6cd4c3, 0) == 0xc3 && Octet(0x4e6cd4c3, 1) == 0xd4
    ensures Octet(0x4e6cd4c3, 2) == 0x6c && Octet(0x4e6cd4c3, 3) == 0x4e
  {
  }

  lemma Pattern8()
    ensures Bits(0x13121110) == 0x13121110
  {
    hide Bits;
    PatternOf(0x13121110, 0x10, 0x11, 0x12, 0x13);
  }

  lemma Pattern9()
    ensures Bits(0x17161514) == 0x17161514
  {
    hide Bits;
    PatternOf(0x17161514, 0x14, 0x15, 0x16, 0x17);
  }

  lemma Pattern10()
    ensures Bits(0x1b1a1918) == 0x1b1a1918
  {
    hide Bits;
    PatternOf(0x1b1a1918, 0x18, 0x19, 0x1a, 0x1b);
  }

  lemma Pattern11()
    ensures Bits(0x1f1e1d1c) == 0x1f1e1d1c
  {
    hide Bits;
    PatternOf(0x1f1e1d1c, 0x1c, 0x1d, 0x1e, 0x1f);
  }

  lemma NumbersC()
    ensures WordOf(0x335271c2) == 0x335271c2
    ensures WordOf(0xf29489f3) == 0xf29489f3
    ensures WordOf(0xeabda8fc) == 0xeabda8fc
    ensures WordOf(0x82e46ebd) == 0x82e46ebd
  {
  }

  lemma SumsC()
    ensures AddWords(0x335271c2, 0x13121110) == 0x466482d2
    ensures AddWords(0xf29489f3, 0x17161514) == 0x09aa9f07
    ensures AddWords(0xeabda8fc, 0x1b1a1918) == 0x05d7c214
    ensures AddWords(0x82e46ebd, 0x1f1e1d1c) == 0xa2028bd9
  {
  }

  lemma OctetsC()
    ensures Octet(0x466482d2, 0) == 0xd2 && Octet(0x466482d2, 1) == 0x82
    ensures Octet(0x466482d2, 2) == 0x64 && Octet(0x466482d2, 3) == 0x46
    ensures Octet(0x09aa9f07, 0) == 0x07 && Octet(0x09aa9f07, 1) == 0x9f
    ensures Octet(0x09aa9f07, 2) == 0xaa && Octet(0x09aa9f07, 3) == 0x09
    ensures Octet(0x05d7c214, 0) == 0x14 && Octet(0x05d7c214, 1) == 0xc2
    ensures Octet(0x05d7c214, 2) == 0xd7 && Octet(0x05d7c214, 3) == 0x05
    ensures Octet(0xa2028bd9, 0) == 0xd9 && Octet(0xa2028bd9, 1) == 0x8b
    ensures Octet(0xa2028bd9, 2) == 0x02 && Octet(0xa2028bd9, 3) == 0xa2
  {
  }

  lemma Pattern12()
    ensures Bits(0x00000001) == 0x00000001
  {
    hide Bits;
    PatternOf(0x00000001, 0x01, 0x00, 0x00, 0x00);
  }

  lemma Pattern13()
    ensures Bits(0x09000000) == 0x09000000
  {
    hide Bits;
    PatternOf(0x09000000, 0x00, 0x00, 0x00, 0x09);
  }

  lemma Pattern14()
    ensures Bits(0x4a000000) == 0x4a000000
  {
    hide Bits;
    PatternOf(0x4a000000, 0x00, 0x00, 0x00, 0x4a);
  }

  lemma Pattern15()
    ensures Bits(0x00000000) == 0x00000000
  {
    hide Bits;
    PatternOf(0x00000000, 0x00, 0x00, 0x00, 0x00);
  }

  lemma NumbersD()
    ensures WordOf(0xd19c12b4) == 0xd19c12b4
    ensures WordOf(0xb04e16de) == 0xb04e16de
    ensures WordOf(0x9e83d0cb) == 0x9e83d0cb
    ensures WordOf(0x4e3c50a2) == 0x4e3c50a2
  {
  }

  lemma SumsD()
    ensures AddWords(0xd19c12b4, 0x00000001) == 0xd19c12b5
    ensures AddWords(0xb04e16de, 0x09000000) == 0xb94e16de
    ensures AddWords(0x9e83d0cb, 0x4a000000) == 0xe883d0cb
    ensures AddWords(0x4e3c50a2, 0x00000000) == 0x4e3c50a2
  {
  }

  lemma OctetsD()
    ensures Octet(0xd19c12b5, 0) == 0xb5 && Octet(0xd19c12b5, 1) == 0x12
    ensures Octet(0xd19c12b5, 2) == 0x9c && Octet(0xd19c12b5, 3) == 0xd1
    ensures Octet(0xb94e16de, 0) == 0xde && Octet(0xb94e16de, 1) == 0x16
    ensures Octet(0xb94e16de, 2) == 0x4e && Octet(0xb94e16de, 3) == 0xb9
    ensures Octet(0xe883d0cb, 0) == 0xcb && Octet(0xe883d0cb, 1) == 0xd0
    ensures Octet(0xe883d0cb, 2) == 0x83 && Octet(0xe883d0cb, 3) == 0xe8
    ensures Octet(0x4e3c50a2, 0) == 0xa2 && Octet(0x4e3c50a2, 1) == 0x50
    ensures Octet(0x4e3c50a2, 2) == 0x3c && Octet(0x4e3c50a2, 3) == 0x4e
  {
  }

  lemma KeyWords()
    ensures FromLittleEndian(0x00, 0x01, 0x02, 0x03) == 0x03020100
    ensures FromLittleEndian(0x04, 0x05, 0x06, 0x07) == 0x07060504
    ensures FromLittleEndian(0x08, 0x09, 0x0a, 0x0b) == 0x0b0a0908
    ensures FromLittleEndian(0x0c, 0x0d, 0x0e, 0x0f) == 0x0f0e0d0c
    ensures FromLittleEndian(0x10, 0x11, 0x12, 0x13) == 0x13121110
    ensures FromLittleEndian(0x14, 0x15, 0x16, 0x17) == 0x17161514
    ensures FromLittleEndian(0x18, 0x19, 0x1a, 0x1b) == 0x1b1a1918
    ensures FromLittleEndian(0x1c, 0x1d, 0x1e, 0x1f) == 0x1f1e1d1c
    ensures FromLittleEndian(0x00, 0x00, 0x00, 0x09) == 0x09000000
    ensures FromLittleEndian(0x00, 0x00, 0x00, 0x4a) == 0x4a000000
    ensures FromLittleEndian(0x00, 0x00, 0x00, 0x00) == 0x00000000
  {
  }

  lemma StateOfVector()
    ensures Rfc8439State(KEY, 1, NONCE) == WORDS
  {
    hide FromLittleEndian, WordsOf;
    KeyWordsAre();
    NonceWordsAre();
  }

  lemma KeyWordsAre()
    ensures WordsOf(KEY, 8) == KEY_WORDS
  {
    hide FromLittleEndian;
    KeyWords();
  }

  lemma NonceWordsAre()
    ensures WordsOf(NONCE, 3) == [0x09000000, 0x4a000000, 0]
  {
    hide FromLittleEndian;
    KeyWords();
  }

  lemma PatternsOfVector()
    ensures BitsOf(WORDS) == S0
  {
    hide Bits;
    Pattern0();
    Pattern1();
    Pattern2();
    Pattern3();
    Pattern4();
    Pattern5();
    Pattern6();
    Pattern7();
    Pattern8();
    Pattern9();
    Pattern10();
    Pattern11();
    Pattern12();
    Pattern13();
    Pattern14();
    Pattern15();
  }

  lemma SumsOfVector()
    ensures FeedForward(S10, WORDS) == SUMS
  {
    hide WordOf, AddWords;
    NumbersA();
    NumbersB();
    NumbersC();
    NumbersD();
    SumsA();
    SumsB();
    SumsC();
    SumsD();
  }

  lemma BytesOfVector()
    ensures Serialize(SUMS) == BLOCK
  {
    hide Serialize;
    var b := Serialize(SUMS);
    Row0();
    Row1();
    Row2();
    Row3();
    assert b == b[..16] + b[16..32] + b[32..48] + b[48..];
  }

  lemma Row0()
    ensures Serialize(SUMS)[0..16] == ROW0
  {
    hide Octet, Serialize;
    OctetsA();
    BytesAt(SUMS, 0);
    BytesAt(SUMS, 1);
    BytesAt(SUMS, 2);
    BytesAt(SUMS, 3);
  }

  lemma Row1()
    ensures Serialize(SUMS)[16..32] == ROW1
  {
    hide Octet, Serialize;
    OctetsB();
    BytesAt(SUMS, 4);
    BytesAt(SUMS, 5);
    BytesAt(SUMS, 6);
    BytesAt(SUMS, 7);
  }

  lemma Row2()
    ensures Serialize(SUMS)[32..48] == ROW2
  {
    hide Octet, Serialize;
    OctetsC();
    BytesAt(SUMS, 8);
    BytesAt(SUMS, 9);
    BytesAt(SUMS, 10);
    BytesAt(SUMS, 11);
  }

  lemma Row3()
    ensures Serialize(SUMS)[48..64] == ROW3
  {
    hide Octet, Serialize;
    OctetsD();
    BytesAt(SUMS, 12);
    BytesAt(SUMS, 13);
    BytesAt(SUMS, 14);
    BytesAt(SUMS, 15);
  }

  lemma BytesAt(x: seq<u32>, i: nat)
    requires i < |x|
    ensures var b := Serialize(x);
            && b[4 * i] == Octet(x[i], 0) && b[4 * i + 1] == Octet(x[i], 1)
            && b[4 * i + 2] == Octet(x[i], 2) && b[4 * i + 3] == Octet(x[i], 3)
  {
    hide Octet;
    assert 4 * i / 4 == i && (4 * i + 1) / 4 == i && (4 * i + 2) / 4 == i && (4 * i + 3) / 4 == i;
  }

  /** The block function gives the 64 bytes that section 2.3.2 of RFC 8439 prints. */
  lemma BlockVector()
    ensures Rfc8439Block(KEY, 1, NONCE) == BLOCK
  {
    hide BitsOf, FeedForward, Serialize, Permute, TenDoubleRounds, Rfc8439State;
    StateOfVector();
    PatternsOfVector();
    RoundsOfVector();
    PermuteIsTenDoubleRounds(S0);
    SumsOfVector();
    BytesOfVector();
  }
}
