/**
 The ChaCha20 block function of the `chacha20` package.

 The reference (`QuarterRound`, `ColumnMap`, `DiagonalMap`, `Rfc8439Block`) follows sections
 2.1 and 2.3 of RFC 8439 and works on all four columns or diagonals at once.
 The code works in place, one quarter round after another.
 */
module ChaChaBlock {
  import opened Words

  // ---------- add, xor, rotate ----------

  /** The four rotation distances of the cipher. */
  datatype Distance = By16 | By12 | By8 | By7

  /** `rotl32`. */
  function Rotl32(v: bv32, n: Distance): (r: bv32) {
    match n
    case By16 => (v << 16) | (v >> 16)
    case By12 => (v << 12) | (v >> 20)
    case By8 => (v << 8) | (v >> 24)
    case By7 => (v << 7) | (v >> 25)
  }

  function Rotr32(v: bv32, n: Distance): (r: bv32) {
    match n
    case By16 => (v >> 16) | (v << 16)
    case By12 => (v >> 12) | (v << 20)
    case By8 => (v >> 8) | (v << 24)
    case By7 => (v >> 7) | (v << 25)
  }

  lemma Rotate16Undone(v: bv32)
    ensures Rotr32(Rotl32(v, By16), By16) == v && Rotl32(Rotr32(v, By16), By16) == v
  {
  }

  lemma Rotate12Undone(v: bv32)
    ensures Rotr32(Rotl32(v, By12), By12) == v && Rotl32(Rotr32(v, By12), By12) == v
  {
  }

  lemma Rotate8Undone(v: bv32)
    ensures Rotr32(Rotl32(v, By8), By8) == v && Rotl32(Rotr32(v, By8), By8) == v
  {
  }

  lemma Rotate7Undone(v: bv32)
    ensures Rotr32(Rotl32(v, By7), By7) == v && Rotl32(Rotr32(v, By7), By7) == v
  {
  }

  lemma RotationUndone(v: bv32, n: Distance)
    ensures Rotr32(Rotl32(v, n), n) == v && Rotl32(Rotr32(v, n), n) == v
  {
    Rotate16Undone(v);
    Rotate12Undone(v);
    Rotate8Undone(v);
    Rotate7Undone(v);
  }

  lemma XorUndone(v: bv32, w: bv32)
    ensures (v ^ w) ^ w == v
  {
  }

  // A line of section 2.1 of RFC 8439, `x += y; z ^= x; z <<<= n`, is Add followed by Mix.

  function Add(x: bv32, y: bv32): bv32 { x + y }
  function Subtract(x: bv32, y: bv32): bv32 { x - y }
  function Mix(z: bv32, x: bv32, n: Distance): bv32 { Rotl32(z ^ x, n) }
  function Unmix(z: bv32, x: bv32, n: Distance): bv32 { Rotr32(z, n) ^ x }

  lemma SumUndone(x: bv32, y: bv32)
    ensures (x + y) - y == x && (x - y) + y == x
  {
  }

  lemma AddUndone(x: bv32, y: bv32)
    ensures Subtract(Add(x, y), y) == x && Add(Subtract(x, y), y) == x
  {
    SumUndone(x, y);
    assert Subtract(x + y, y) == x;
    assert Add(x - y, y) == x;
  }

  lemma MixUndone(z: bv32, x: bv32, n: Distance)
    ensures Unmix(Mix(z, x, n), x, n) == z && Mix(Unmix(z, x, n), x, n) == z
  {
    RotationUndone(z ^ x, n);
    XorUndone(z, x);
    RotationUndone(z, n);
    XorUndone(Rotr32(z, n), x);
  }

  // ---------- quarter round ----------
  // What lies above the arithmetic is generic in the word type and its operations.

  datatype Ops<!T> = Ops(add: (T, T) -> T, mix: (T, T, Distance) -> T)

  const ARX: Ops<bv32> := Ops(Add, Mix)
  const ARX_INVERSE: Ops<bv32> := Ops(Subtract, Unmix)

  datatype Quad<T> = Quad(a: T, b: T, c: T, d: T)

  /** Section 2.1 of RFC 8439. */
  function QuarterRound<T>(f: Ops<T>, q: Quad<T>): (r: Quad<T>) {
    var a1 := f.add(q.a, q.b);
    var d1 := f.mix(q.d, a1, By16);
    var c1 := f.add(q.c, d1);
    var b1 := f.mix(q.b, c1, By12);
    var a2 := f.add(a1, b1);
    var d2 := f.mix(d1, a2, By8);
    var c2 := f.add(c1, d2);
    Quad(a2, f.mix(b1, c2, By7), c2, d2)
  }

  /** The quarter round run backwards. */
  function QuarterRoundInverse<T>(g: Ops<T>, q: Quad<T>): (r: Quad<T>) {
    var b1 := g.mix(q.b, q.c, By7);
    var c1 := g.add(q.c, q.d);
    var d1 := g.mix(q.d, q.a, By8);
    var a1 := g.add(q.a, b1);
    var b := g.mix(b1, c1, By12);
    var c := g.add(c1, d1);
    Quad(g.add(a1, b), b, c, g.mix(d1, a1, By16))
  }

  function Forward<T>(f: Ops<T>): Quad<T> -> Quad<T> {
    q => QuarterRound(f, q)
  }

  function Backward<T>(g: Ops<T>): Quad<T> -> Quad<T> {
    q => QuarterRoundInverse(g, q)
  }

  ghost predicate OpsUndo<T(!new)>(g: Ops<T>, f: Ops<T>) {
    && (forall x, y :: g.add(f.add(x, y), y) == x)
    && (forall z, x, n :: g.mix(f.mix(z, x, n), x, n) == z)
  }

  lemma ArxUndone()
    ensures OpsUndo(ARX_INVERSE, ARX) && OpsUndo(ARX, ARX_INVERSE)
  {
    forall x, y ensures Subtract(Add(x, y), y) == x && Add(Subtract(x, y), y) == x {
      AddUndone(x, y);
    }
    forall z, x, n ensures Unmix(Mix(z, x, n), x, n) == z && Mix(Unmix(z, x, n), x, n) == z {
      MixUndone(z, x, n);
    }
  }

  lemma QuarterRoundUndone<T(!new)>(f: Ops<T>, g: Ops<T>, q: Quad<T>)
    requires OpsUndo(g, f)
    ensures QuarterRoundInverse(g, QuarterRound(f, q)) == q
  {
  }

  lemma QuarterRoundInverseUndone<T(!new)>(f: Ops<T>, g: Ops<T>, q: Quad<T>)
    requires OpsUndo(f, g)
    ensures QuarterRound(f, QuarterRoundInverse(g, q)) == q
  {
  }

  /** The example of section 2.1.1 of RFC 8439. */
  lemma QuarterRoundExample()
    ensures QuarterRound(ARX, Quad(0x11111111, 0x01020304, 0x9b8d6f43, 0x01234567))
         == Quad(0xea2a92f4, 0xcb1cf8ce, 0x4581472e, 0x5881c4bb)
  {
  }

  // ---------- rounds, all four quarter rounds at once ----------

  function ColumnMap<T>(f: Quad<T> -> Quad<T>, s: seq<T>): (r: seq<T>)
    requires |s| == 16
    ensures |r| == 16
  {
    var q0, q1 := f(Quad(s[0], s[4], s[8], s[12])), f(Quad(s[1], s[5], s[9], s[13]));
    var q2, q3 := f(Quad(s[2], s[6], s[10], s[14])), f(Quad(s[3], s[7], s[11], s[15]));
    [q0.a, q1.a, q2.a, q3.a,
     q0.b, q1.b, q2.b, q3.b,
     q0.c, q1.c, q2.c, q3.c,
     q0.d, q1.d, q2.d, q3.d]
  }

  /** Row `r` of diagonal `j` is word `(j + r) mod 4` of that row. */
  function DiagonalMap<T>(f: Quad<T> -> Quad<T>, s: seq<T>): (r: seq<T>)
    requires |s| == 16
    ensures |r| == 16
  {
    var q0, q1 := f(Quad(s[0], s[5], s[10], s[15])), f(Quad(s[1], s[6], s[11], s[12]));
    var q2, q3 := f(Quad(s[2], s[7], s[8], s[13])), f(Quad(s[3], s[4], s[9], s[14]));
    [q0.a, q1.a, q2.a, q3.a,
     q3.b, q0.b, q1.b, q2.b,
     q2.c, q3.c, q0.c, q1.c,
     q1.d, q2.d, q3.d, q0.d]
  }

  /** Two rounds, as one map on states; other lengths are left alone. */
  function DoubleRound<T>(f: Quad<T> -> Quad<T>): seq<T> -> seq<T> {
    s => if |s| == 16 then DiagonalMap(f, ColumnMap(f, s)) else s
  }

  function DoubleRoundInverse<T>(g: Quad<T> -> Quad<T>): seq<T> -> seq<T> {
    s => if |s| == 16 then ColumnMap(g, DiagonalMap(g, s)) else s
  }

  function Iterate<S>(h: S -> S, s: S, n: nat): (r: S)
    decreases n, s
  {
    if n == 0 then s else h(Iterate(h, s, n - 1))
  }

  // ---------- invertibility ----------

  ghost predicate Undoes<T(!new)>(g: Quad<T> -> Quad<T>, f: Quad<T> -> Quad<T>) {
    forall q :: g(f(q)) == q
  }

  predicate Cancels<S(==)>(k: S -> S, h: S -> S, t: S) {
    k(h(t)) == t
  }

  lemma DoubleRoundUndone<T(!new)>(f: Quad<T> -> Quad<T>, g: Quad<T> -> Quad<T>, s: seq<T>)
    requires Undoes(g, f)
    ensures Cancels(DoubleRoundInverse(g), DoubleRound(f), s)
  {
    if |s| == 16 {
      var t := ColumnMap(f, s);
      assert DiagonalMap(g, DiagonalMap(f, t)) == t;
      assert ColumnMap(g, t) == s;
    }
  }

  lemma DoubleRoundInverseUndone<T(!new)>(f: Quad<T> -> Quad<T>, g: Quad<T> -> Quad<T>, s: seq<T>)
    requires Undoes(f, g)
    ensures Cancels(DoubleRound(f), DoubleRoundInverse(g), s)
  {
    if |s| == 16 {
      var t := DiagonalMap(g, s);
      assert ColumnMap(f, ColumnMap(g, t)) == t;
      assert DiagonalMap(f, t) == s;
    }
  }

  lemma {:induction false} IterateFromInside<S>(h: S -> S, s: S, n: nat)
    ensures Iterate(h, h(s), n) == h(Iterate(h, s, n))
  {
    if n > 0 {
      IterateFromInside(h, s, n - 1);
    }
  }

  ghost predicate LeftInverse<S(!new)>(k: S -> S, h: S -> S) {
    forall t :: Cancels(k, h, t)
  }

  lemma {:induction false} IterateUndone<S(!new)>(h: S -> S, k: S -> S, s: S, n: nat)
    requires LeftInverse(k, h)
    ensures Iterate(k, Iterate(h, s, n), n) == s
  {
    if n > 0 {
      IterateFromInside(k, Iterate(h, s, n), n - 1);
      assert Cancels(k, h, Iterate(h, s, n - 1));
      IterateUndone(h, k, s, n - 1);
    }
  }

  // ---------- the block function ----------

  const ROUND_PAIRS: nat := 10

  ghost predicate KeepsLength<T(!new)>(h: seq<T> -> seq<T>) {
    forall t :: |h(t)| == |t|
  }

  lemma {:induction false} IterateKeepsLength<T(!new)>(h: seq<T> -> seq<T>, s: seq<T>, n: nat)
    requires KeepsLength(h)
    ensures |Iterate(h, s, n)| == |s|
  {
    if n > 0 {
      IterateKeepsLength(h, s, n - 1);
    }
  }

  lemma DoubleRoundKeepsLength<T(!new)>(f: Quad<T> -> Quad<T>)
    ensures KeepsLength(DoubleRound(f)) && KeepsLength(DoubleRoundInverse(f))
  {
  }

  /** The 20 rounds, before the input is added back. */
  function Permute(s: seq<bv32>): (r: seq<bv32>)
    ensures |r| == |s|
  {
    DoubleRoundKeepsLength(Forward(ARX));
    IterateKeepsLength(DoubleRound(Forward(ARX)), s, ROUND_PAIRS);
    Iterate(DoubleRound(Forward(ARX)), s, ROUND_PAIRS)
  }

  function PermuteInverse(s: seq<bv32>): (r: seq<bv32>) {
    Iterate(DoubleRoundInverse(Backward(ARX_INVERSE)), s, ROUND_PAIRS)
  }

  lemma QuarterRoundsUndone()
    ensures Undoes(Backward(ARX_INVERSE), Forward(ARX))
    ensures Undoes(Forward(ARX), Backward(ARX_INVERSE))
  {
    ArxUndone();
    forall q ensures Backward(ARX_INVERSE)(Forward(ARX)(q)) == q {
      QuarterRoundUndone(ARX, ARX_INVERSE, q);
    }
    forall q ensures Forward(ARX)(Backward(ARX_INVERSE)(q)) == q {
      QuarterRoundInverseUndone(ARX, ARX_INVERSE, q);
    }
  }

  lemma DoubleRoundIsInvertible<T(!new)>(f: Quad<T> -> Quad<T>, g: Quad<T> -> Quad<T>)
    requires Undoes(g, f) && Undoes(f, g)
    ensures LeftInverse(DoubleRoundInverse(g), DoubleRound(f))
    ensures LeftInverse(DoubleRound(f), DoubleRoundInverse(g))
  {
    forall t ensures Cancels(DoubleRoundInverse(g), DoubleRound(f), t) {
      DoubleRoundUndone(f, g, t);
    }
    forall t ensures Cancels(DoubleRound(f), DoubleRoundInverse(g), t) {
      DoubleRoundInverseUndone(f, g, t);
    }
  }

  /** The round part is a permutation of all 16-word states: it has a two-sided inverse. */
  lemma PermuteUndone(s: seq<bv32>)
    ensures PermuteInverse(Permute(s)) == s
    ensures Permute(PermuteInverse(s)) == s
  {
    hide DoubleRound, DoubleRoundInverse;
    QuarterRoundsUndone();
    DoubleRoundIsInvertible(Forward(ARX), Backward(ARX_INVERSE));
    IterateUndone(DoubleRound(Forward(ARX)), DoubleRoundInverse(Backward(ARX_INVERSE)), s, ROUND_PAIRS);
    IterateUndone(DoubleRoundInverse(Backward(ARX_INVERSE)), DoubleRound(Forward(ARX)), s, ROUND_PAIRS);
  }

  function BitsOf(s: seq<u32>): (m: seq<bv32>)
    ensures |m| == |s|
    ensures forall i :: 0 <= i < |s| ==> m[i] == Bits(s[i])
  {
    seq(|s|, i requires 0 <= i < |s| => Bits(s[i]))
  }

  /** The rounds' output as numbers, with the input added back. */
  function FeedForward(x: seq<bv32>, s: seq<u32>): (m: seq<u32>)
    requires |x| == |s|
    ensures |m| == |x|
    ensures forall i :: 0 <= i < |x| ==> m[i] == AddWords(WordOf(x[i]), s[i])
  {
    seq(|x|, i requires 0 <= i < |x| => AddWords(WordOf(x[i]), s[i]))
  }

  function Serialize(x: seq<u32>): (b: Bytes)
    ensures |b| == 4 * |x|
    ensures forall k :: 0 <= k < 4 * |x| ==> b[k] == Octet(x[k / 4], k % 4)
  {
    seq(4 * |x|, k requires 0 <= k < 4 * |x| => Octet(x[k / 4], k % 4))
  }

  function OutputWords(s: seq<u32>): (x: seq<u32>)
    ensures |x| == |s|
  {
    FeedForward(Permute(BitsOf(s)), s)
  }

  /** The 64 keystream bytes generated from one input state. */
  function Block(s: seq<u32>): (b: Bytes)
    requires |s| == 16
    ensures |b| == 64
  {
    Serialize(OutputWords(s))
  }

  const CONSTANTS: seq<u32> := [0x61707865, 0x3320646e, 0x79622d32, 0x6b206574]

  /** `n` little-endian words read from `b`. */
  function WordsOf(b: Bytes, n: nat): (w: seq<u32>)
    requires |b| == 4 * n
    ensures |w| == n
  {
    seq(n, i requires 0 <= i < n => FromLittleEndian(b[4 * i], b[4 * i + 1], b[4 * i + 2], b[4 * i + 3]))
  }

  lemma WordAt(b: Bytes, n: nat, i: nat)
    requires |b| == 4 * n && i < n
    ensures WordsOf(b, n)[i] == FromLittleEndian(b[4 * i], b[4 * i + 1], b[4 * i + 2], b[4 * i + 3])
  {
    hide FromLittleEndian;
  }

  /** The input state of section 2.3 of RFC 8439: 32-bit counter, 96-bit nonce. */
  function Rfc8439State(key: Bytes, counter: u32, nonce: Bytes): (s: seq<u32>)
    requires |key| == 32 && |nonce| == 12
    ensures |s| == 16
  {
    CONSTANTS + WordsOf(key, 8) + [counter] + WordsOf(nonce, 3)
  }

  /** The chacha20 block function of section 2.3 of RFC 8439. */
  function Rfc8439Block(key: Bytes, counter: u32, nonce: Bytes): (b: Bytes)
    requires |key| == 32 && |nonce| == 12
  {
    Block(Rfc8439State(key, counter, nonce))
  }

  /** The package's own layout: 64-bit counter, 64-bit stream id fixed at 0. */
  function Layout(key: Bytes, counter: nat): (s: seq<u32>)
    requires |key| == 32 && counter < TWO_64
    ensures |s| == 16
  {
    CONSTANTS + WordsOf(key, 8) + [(counter % TWO_32) as u32, (counter / TWO_32) as u32, 0, 0]
  }

  const ZERO_NONCE: Bytes := [0, 0, 0, 0, 0, 0, 0, 0, 0, 0, 0, 0]

  lemma ZeroNonceWords()
    ensures WordsOf(ZERO_NONCE, 3) == [0, 0, 0]
  {
  }

  lemma LayoutIsRfc8439State(key: Bytes, counter: nat)
    requires |key| == 32 && counter < TWO_32
    ensures Layout(key, counter) == Rfc8439State(key, counter as u32, ZERO_NONCE)
  {
    ZeroNonceWords();
  }

  /** Below 2^32 the package's block is the RFC 8439 block with the zero nonce. */
  lemma BlockIsRfc8439Block(key: Bytes, counter: nat)
    requires |key| == 32 && counter < TWO_32
    ensures Block(Layout(key, counter)) == Rfc8439Block(key, counter as u32, ZERO_NONCE)
  {
    hide Block;
    LayoutIsRfc8439State(key, counter);
  }

  /** Two counters never reach the same state before the feed-forward. */
  lemma DistinctCountersNeverCollide(key: Bytes, c1: nat, c2: nat)
    requires |key| == 32 && c1 < TWO_64 && c2 < TWO_64
    requires c1 != c2
    ensures Permute(BitsOf(Layout(key, c1))) != Permute(BitsOf(Layout(key, c2)))
  {
    hide Permute, PermuteInverse, BitsOf, Layout;
    PermuteUndone(BitsOf(Layout(key, c1)));
    PermuteUndone(BitsOf(Layout(key, c2)));
    if Permute(BitsOf(Layout(key, c1))) == Permute(BitsOf(Layout(key, c2))) {
      LayoutDeterminesCounter(key, c1, c2);
    }
  }

  lemma LayoutDeterminesCounter(key: Bytes, c1: nat, c2: nat)
    requires |key| == 32 && c1 < TWO_64 && c2 < TWO_64
    requires BitsOf(Layout(key, c1)) == BitsOf(Layout(key, c2))
    ensures c1 == c2
  {
    var s1, s2 := Layout(key, c1), Layout(key, c2);
    assert BitsOf(s1)[12] == BitsOf(s2)[12] && BitsOf(s1)[13] == BitsOf(s2)[13];
    BitsInjective(s1[12], s2[12]);
    BitsInjective(s1[13], s2[13]);
  }

  // ---------- the in-place code ----------

  function ApplyAt<T>(f: Quad<T> -> Quad<T>, s: seq<T>, a: nat, b: nat, c: nat, d: nat): (r: seq<T>)
    requires |s| == 16 && a < 4 <= b < 8 <= c < 12 <= d < 16
    ensures |r| == 16
  {
    var q := f(Quad(s[a], s[b], s[c], s[d]));
    s[a := q.a][b := q.b][c := q.c][d := q.d]
  }

  /** Four quarter rounds in sequence touch disjoint columns, so they act as one column round. */
  lemma ColumnsInSequence<T>(f: Quad<T> -> Quad<T>, s: seq<T>)
    requires |s| == 16
    ensures ApplyAt(f, ApplyAt(f, ApplyAt(f, ApplyAt(f, s, 0, 4, 8, 12), 1, 5, 9, 13), 2, 6, 10, 14), 3, 7, 11, 15)
         == ColumnMap(f, s)
  {
  }

  lemma DiagonalsInSequence<T>(f: Quad<T> -> Quad<T>, s: seq<T>)
    requires |s| == 16
    ensures ApplyAt(f, ApplyAt(f, ApplyAt(f, ApplyAt(f, s, 0, 5, 10, 15), 1, 6, 11, 12), 2, 7, 8, 13), 3, 4, 9, 14)
         == DiagonalMap(f, s)
  {
  }

  /** `quarterRound`: the four words are updated in place, one after another; `mix` is xor, then `rotl32`. */
  method QuarterRoundInPlace<T>(f: Ops<T>, x: array<T>, a: nat, b: nat, c: nat, d: nat)
    requires x.Length == 16 && a < 4 <= b < 8 <= c < 12 <= d < 16
    modifies x
    ensures x[..] == ApplyAt(Forward(f), old(x[..]), a, b, c, d)
  {
    x[a] := f.add(x[a], x[b]);
    x[d] := f.mix(x[d], x[a], By16);

    x[c] := f.add(x[c], x[d]);
    x[b] := f.mix(x[b], x[c], By12);

    x[a] := f.add(x[a], x[b]);
    x[d] := f.mix(x[d], x[a], By8);

    x[c] := f.add(x[c], x[d]);
    x[b] := f.mix(x[b], x[c], By7);
  }

  /** One pass of the loop of `refillBlock`. */
  method DoubleRoundInPlace<T>(f: Ops<T>, x: array<T>)
    requires x.Length == 16
    modifies x
    ensures x[..] == DoubleRound(Forward(f))(old(x[..]))
  {
    ghost var qr := Forward(f);
    ghost var s := x[..];
    QuarterRoundInPlace(f, x, 0, 4, 8, 12);
    QuarterRoundInPlace(f, x, 1, 5, 9, 13);
    QuarterRoundInPlace(f, x, 2, 6, 10, 14);
    QuarterRoundInPlace(f, x, 3, 7, 11, 15);
    ColumnsInSequence(qr, s);
    ghost var t := x[..];

    QuarterRoundInPlace(f, x, 0, 5, 10, 15);
    QuarterRoundInPlace(f, x, 1, 6, 11, 12);
    QuarterRoundInPlace(f, x, 2, 7, 8, 13);
    QuarterRoundInPlace(f, x, 3, 4, 9, 14);
    DiagonalsInSequence(qr, t);
  }

  /** The round loop of `refillBlock`. */
  method RoundLoop<T>(f: Ops<T>, x: array<T>, n: nat)
    requires x.Length == 16
    modifies x
    ensures x[..] == Iterate(DoubleRound(Forward(f)), old(x[..]), n)
  {
    hide DoubleRound;
    for i := 0 to n
      invariant x[..] == Iterate(DoubleRound(Forward(f)), old(x[..]), i)
    {
      DoubleRoundInPlace(f, x);
    }
  }

  method PermuteInPlace(x: array<bv32>)
    requires x.Length == 16
    modifies x
    ensures x[..] == Permute(old(x[..]))
  {
    hide DoubleRound;
    RoundLoop(ARX, x, ROUND_PAIRS);
  }

  /** Rounds on a copy of the state, then the feed-forward. */
  method WorkingWords(state: seq<u32>) returns (w: seq<u32>)
    requires |state| == 16
    ensures w == OutputWords(state)
  {
    hide Permute;
    var x := CopyBits(state);
    PermuteInPlace(x);
    w := AddBack(x, state);
  }

  /** `refillBlock` up to the buffer. */
  method GenerateBlock(state: seq<u32>, buf: array<byte>)
    requires |state| == 16 && buf.Length == 64
    modifies buf
    ensures buf[..] == Block(state)
  {
    hide OutputWords;
    var w := WorkingWords(state);
    WriteOut(w, buf);
  }

  method CopyBits(state: seq<u32>) returns (x: array<bv32>)
    requires |state| == 16
    ensures fresh(x) && x.Length == 16 && x[..] == BitsOf(state)
  {
    x := new bv32[16](_ => 0);
    for i := 0 to 16
      invariant forall j :: 0 <= j < i ==> x[j] == Bits(state[j])
    {
      x[i] := Bits(state[i]);
    }
  }

  /** The feed-forward loop; from here on the words are numbers. */
  method AddBack(x: array<bv32>, state: seq<u32>) returns (w: seq<u32>)
    requires x.Length == 16 && |state| == 16
    ensures w == FeedForward(x[..], state)
  {
    hide WordOf, AddWords;
    w := [];
    for i := 0 to 16
      invariant |w| == i
      invariant forall j :: 0 <= j < i ==> w[j] == AddWords(WordOf(x[j]), state[j])
    {
      w := w + [AddWords(WordOf(x[i]), state[i])];
    }
  }

  /** The output loop with `binary.LittleEndian.PutUint32`. */
  method WriteOut(w: seq<u32>, buf: array<byte>)
    requires |w| == 16 && buf.Length == 64
    modifies buf
    ensures buf[..] == Serialize(w)
  {
    hide Octet;
    for i := 0 to 16
      invariant forall k :: 0 <= k < 4 * i ==> buf[k] == Octet(w[k / 4], k % 4)
    {
      buf[4 * i], buf[4 * i + 1] := Octet(w[i], 0), Octet(w[i], 1);
      buf[4 * i + 2], buf[4 * i + 3] := Octet(w[i], 2), Octet(w[i], 3);
    }
  }
}
