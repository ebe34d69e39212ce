/**
 The buffered keystream generator `ChaCha20Rng`.

 A generator is specified by its key and its position in the keystream.  The keystream has
 2^64 blocks of 64 bytes and then repeats, since the block counter wraps around.
 */
module ChaChaRng {
  import opened Words
  import opened ChaChaBlock

  /** Keystream bytes before the block counter returns to 0: 64 * 2^64. */
  const PERIOD: nat := 0x40_0000_0000_0000_0000

  type Key = k: Bytes | |k| == 32 witness seq(32, _ => 0)

  /** The 64-byte block for each value of the block counter. */
  type Blocks = f: nat -> Bytes | forall c :: |f(c)| == 64 witness _ => seq(64, _ => 0)

  function BlocksOf(key: Key): (f: Blocks) {
    hide Block, Layout;
    c => Block(Layout(key, c % TWO_64))
  }

  lemma BlocksOfKey(key: Key, c: nat)
    requires c < TWO_64
    ensures BlocksOf(key)(c) == Block(Layout(key, c))
  {
    hide Block, Layout;
  }

  function KeystreamByte(blocks: Blocks, i: nat): (b: byte) {
    blocks(i / 64 % TWO_64)[i % 64]
  }

  /** The `n` keystream bytes from position `from` on. */
  function Keystream(blocks: Blocks, from: nat, n: nat): (s: Bytes)
    ensures |s| == n
  {
    seq(n, j requires 0 <= j < n => KeystreamByte(blocks, from + j))
  }

  lemma KeystreamSlice(blocks: Blocks, from: nat, n: nat, lo: nat, hi: nat)
    requires lo <= hi <= n
    ensures Keystream(blocks, from, n)[lo..hi] == Keystream(blocks, from + lo, hi - lo)
  {
    forall k | 0 <= k < hi - lo
      ensures Keystream(blocks, from, n)[lo..hi][k] == Keystream(blocks, from + lo, hi - lo)[k]
    {
      assert from + (lo + k) == from + lo + k;
    }
  }

  lemma KeystreamConcat(blocks: Blocks, from: nat, m: nat, n: nat)
    ensures Keystream(blocks, from, m) + Keystream(blocks, from + m, n) == Keystream(blocks, from, m + n)
  {
    hide Keystream;
    KeystreamSlice(blocks, from, m + n, 0, m);
    KeystreamSlice(blocks, from, m + n, m, m + n);
  }

  /** Block and offset of byte `pos + j` of block `c`, seen from any position that reduces to `pos` of `c`. */
  lemma BlockOfPosition(at: nat, c: nat, pos: nat, j: nat)
    requires c < TWO_64 && pos + j < 64
    requires at % PERIOD == 64 * c + pos
    ensures (at + j) / 64 % TWO_64 == c
    ensures (at + j) % 64 == pos + j
  {
    var q := at / PERIOD;
    var base := TWO_64 * q + c;
    assert at + j == 64 * base + (pos + j);
    assert (at + j) / 64 == base;
  }

  /** From offset `pos` on, block `c` is the keystream from any position that reduces to `pos` of `c`. */
  lemma BlockIsKeystream(blocks: Blocks, b: Bytes, at: nat, c: nat, pos: nat)
    requires c < TWO_64 && pos <= 64 && at % PERIOD == 64 * c + pos && b == blocks(c) && |b| == 64
    ensures b[pos..] == Keystream(blocks, at, 64 - pos)
  {
    forall j | 0 <= j < 64 - pos ensures b[pos..][j] == Keystream(blocks, at, 64 - pos)[j] {
      BlockOfPosition(at, c, pos, j);
    }
  }

  lemma AddModulo(a: nat, b: nat)
    ensures (a % PERIOD + b) % PERIOD == (a + b) % PERIOD
  {
    var q, t := a / PERIOD, (a % PERIOD + b) / PERIOD;
    assert a + b == PERIOD * (q + t) + (a % PERIOD + b) % PERIOD;
  }

  /** The keystream repeats with the block counter. */
  lemma KeystreamPeriodic(blocks: Blocks, at: nat, n: nat)
    ensures Keystream(blocks, at % PERIOD, n) == Keystream(blocks, at, n)
  {
    forall j | 0 <= j < n
      ensures Keystream(blocks, at % PERIOD, n)[j] == Keystream(blocks, at, n)[j]
    {
      AddModulo(at, j);
      var p := (at + j) % PERIOD;
      BlockOfPosition(at + j, p / 64, p % 64, 0);
      BlockOfPosition(at % PERIOD + j, p / 64, p % 64, 0);
    }
  }

  /** Reading `m` bytes and then `n` bytes gives what reading `m + n` bytes at once gives. */
  lemma ReadsCompose(blocks: Blocks, at: nat, m: nat, n: nat)
    ensures Keystream(blocks, at, m) + Keystream(blocks, (at + m) % PERIOD, n) == Keystream(blocks, at, m + n)
  {
    hide Keystream;
    KeystreamPeriodic(blocks, at + m, n);
    KeystreamConcat(blocks, at, m, n);
  }

  function Previous(c: nat): (p: nat)
    requires c < TWO_64
    ensures p < TWO_64
  {
    if c == 0 then 0xFFFF_FFFF_FFFF_FFFF else c - 1
  }

  function Next(c: nat): (n: nat)
    requires c < TWO_64
    ensures n < TWO_64
    ensures Previous(n) == c
  {
    if c == 0xFFFF_FFFF_FFFF_FFFF then 0 else c + 1
  }

  /** Stream position of a generator with block counter `c` that has used `used` bytes of its buffer. */
  function PositionOf(c: nat, used: nat): (p: nat)
    requires c < TWO_64 && used <= 64
    ensures p < PERIOD
  {
    if used == 64 then 64 * c else 64 * Previous(c) + used
  }

  lemma PositionAdvances(c: nat, used: nat, n: nat)
    requires c < TWO_64 && used < 64 && used + n <= 64
    ensures PositionOf(c, used + n) == (PositionOf(c, used) + n) % PERIOD
  {
  }

  lemma PositionKeptByRefill(c: nat)
    requires c < TWO_64
    ensures PositionOf(Next(c), 0) == PositionOf(c, 64)
  {
  }

  lemma PositionJumps(c: nat, k: nat)
    requires c < TWO_64 && k < TWO_64
    ensures PositionOf((c + k) % TWO_64, 64) == (PositionOf(c, 64) + 64 * k) % PERIOD
  {
  }

  /** The state `New` builds: constants, key words, counter 0, stream id 0. */
  method InitialState(seed: Key) returns (state: array<u32>)
    ensures fresh(state) && state.Length == 16
    ensures state[..] == Layout(seed, 0) && state[12] == 0 && state[13] == 0
  {
    hide Layout, WordsOf, FromLittleEndian;
    state := new u32[16](_ => 0);
    state[0], state[1], state[2], state[3] := 0x61707865, 0x3320646e, 0x79622d32, 0x6b206574;
    for i := 0 to 8
      invariant state[..4] == CONSTANTS
      invariant forall j :: 0 <= j < i ==> state[4 + j] == WordsOf(seed, 8)[j]
      invariant forall j :: 4 + i <= j < 16 ==> state[j] == 0
    {
      WordAt(seed, 8, i);
      state[4 + i] := FromLittleEndian(seed[4 * i], seed[4 * i + 1], seed[4 * i + 2], seed[4 * i + 3]);
    }
    StateIsLayout(seed, state[..]);
  }

  /** Constants, key words and four zero words are the layout of counter 0. */
  lemma StateIsLayout(seed: Key, s: seq<u32>)
    requires |s| == 16 && s[..4] == CONSTANTS
    requires forall j :: 0 <= j < 8 ==> s[4 + j] == WordsOf(seed, 8)[j]
    requires forall j :: 12 <= j < 16 ==> s[j] == 0
    ensures s == Layout(seed, 0)
  {
    hide WordsOf;
    assert s[4..12] == WordsOf(seed, 8);
    assert s == s[..4] + s[4..12] + s[12..];
  }

  class ChaCha20Rng {
    const state: array<u32>
    const buf: array<byte>
    var bufPos: nat
    ghost const key: Key
    ghost const blocks: Blocks

    ghost predicate Valid()
      reads this, state, buf
    {
      && state.Length == 16 && buf.Length == 64 && bufPos <= 64
      && state[..] == Layout(key, Counter())
      && (bufPos < 64 ==> buf[..] == blocks(Previous(Counter())))
      && (forall c: nat {:trigger Block(Layout(key, c))} ::
            c < TWO_64 ==> Block(Layout(key, c)) == blocks(c))
    }

    /** `Counter`: the two counter words, `state[13]` high. */
    function Counter(): (c: nat)
      requires state.Length == 16
      reads this, state
      ensures c < TWO_64
    {
      TWO_32 * state[13] as nat + state[12] as nat
    }

    /** Position in the keystream of the next byte to be produced. */
    ghost function Position(): (p: nat)
      requires Valid()
      reads this, state, buf
      ensures p < PERIOD
    {
      PositionOf(Counter(), bufPos)
    }

    /** `New`. */
    constructor (seed: Key)
      ensures Valid() && key == seed && blocks == BlocksOf(seed) && Position() == 0
      ensures fresh(state) && fresh(buf)
    {
      hide Block, Layout, BlocksOf;
      var s := InitialState(seed);
      state := s;
      buf := new byte[64](_ => 0);
      bufPos := 64;
      key := seed;
      blocks := BlocksOf(seed);
      new;
      forall c: nat | c < TWO_64
        ensures Block(Layout(key, c)) == blocks(c)
      {
        BlocksOfKey(seed, c);
      }
    }

    /** `incrementCounter`: a 32-bit increment with a carry into the high word. */
    method IncrementCounter()
      requires state.Length == 16 && state[..] == Layout(key, Counter())
      modifies state
      ensures Counter() == Next(old(Counter()))
      ensures state[..] == Layout(key, Counter())
    {
      state[12] := if state[12] == 0xFFFF_FFFF then 0 else state[12] + 1;
      if state[12] == 0 {
        state[13] := if state[13] == 0xFFFF_FFFF then 0 else state[13] + 1;
      }
    }

    /** `refillBlock`. */
    method RefillBlock()
      requires Valid()
      modifies this`bufPos, state, buf
      ensures Valid() && bufPos == 0
      ensures Counter() == Next(old(Counter()))
    {
      hide Block, Layout;
      GenerateBlock(state[..], buf);
      bufPos := 0;
      ghost var block := buf[..];
      IncrementCounter();
      assert buf[..] == block;
    }

    /** `SetCounter`: jump to a block boundary; the buffer is dropped. */
    method SetCounter(counter: nat)
      requires Valid() && counter < TWO_64
      modifies this`bufPos, state
      ensures Valid() && Counter() == counter && bufPos == 64
    {
      state[12] := (counter % TWO_32) as u32;
      state[13] := (counter / TWO_32) as u32;
      bufPos := 64;
    }

    /** What is left in the buffer is the keystream from the current position on. */
    lemma BufferIsKeystream(at: nat)
      requires Valid() && bufPos < 64 && Position() == at % PERIOD
      ensures buf[bufPos..] == Keystream(blocks, at, 64 - bufPos)
    {
      hide Layout, Block;
      BlockIsKeystream(blocks, buf[..], at, Previous(Counter()), bufPos);
      assert buf[bufPos..] == buf[..][bufPos..];
    }

    /** `copy(dst[:n], r.buf[r.bufPos:r.bufPos+n])`, with `done` bytes of `dst` already filled. */
    method CopyOut(dst: array<byte>, done: nat, n: nat)
      requires buf.Length == 64 && bufPos + n <= 64 && dst != buf && done + n <= dst.Length
      modifies dst
      ensures dst[..done + n] == old(dst[..done]) + buf[bufPos..][..n]
    {
      for j := 0 to n
        invariant dst[..done] == old(dst[..done])
        invariant forall k :: done <= k < done + j ==> dst[k] == buf[bufPos + (k - done)]
      {
        dst[done + j] := buf[bufPos + j];
      }
    }

    /** `FillBytes`: the next `dst.Length` keystream bytes, block by block. */
    method FillBytes(dst: array<byte>)
      requires Valid() && dst != buf
      modifies this`bufPos, state, buf, dst
      ensures Valid()
      ensures dst[..] == Keystream(blocks, old(Position()), dst.Length)
      ensures Position() == (old(Position()) + dst.Length) % PERIOD
    {
      hide Keystream, ChaCha20Rng.Valid, ChaCha20Rng.Position;
      var done := 0;
      ghost var start := Position();
      assert dst[..0] == Keystream(blocks, start, 0);
      while done < dst.Length
        invariant Valid() && done <= dst.Length
        invariant Position() == (start + done) % PERIOD
        invariant dst[..done] == Keystream(blocks, start, done)
      {
        RefillIfSpent();
        var n := 64 - bufPos;
        if n > dst.Length - done {
          n := dst.Length - done;
        }
        FillChunk(dst, start, done, n);
        done := done + n;
      }
    }

    /** The test at the head of that loop: a spent buffer is refilled, which does not move the position. */
    method RefillIfSpent()
      requires Valid()
      modifies this`bufPos, state, buf
      ensures Valid() && bufPos < 64 && Position() == old(Position())
    {
      hide Layout, PositionOf, Block, Previous, Next;
      if bufPos == 64 {
        PositionKeptByRefill(Counter());
        RefillBlock();
      }
    }

    /** One pass of the loop of `FillBytes`. */
    method FillChunk(dst: array<byte>, ghost start: nat, done: nat, n: nat)
      requires Valid() && dst != buf && bufPos < 64 && bufPos + n <= 64 && done + n <= dst.Length
      requires Position() == (start + done) % PERIOD && dst[..done] == Keystream(blocks, start, done)
      modifies this`bufPos, dst
      ensures Valid()
      ensures Position() == (start + done + n) % PERIOD
      ensures dst[..done + n] == Keystream(blocks, start, done + n)
    {
      hide Layout, Keystream, PositionOf, Block, Previous, Next;
      BufferIsKeystream(start + done);
      KeystreamSlice(blocks, start + done, 64 - bufPos, 0, n);
      KeystreamConcat(blocks, start, done, n);
      CopyOut(dst, done, n);
      PositionAdvances(Counter(), bufPos, n);
      AddModulo(start + done, n);
      bufPos := bufPos + n;
    }

    /** `DiscardBytesFast`: the position moves as if `n` bytes had been produced and dropped. */
    method DiscardBytesFast(n: nat)
      requires Valid() && n < TWO_64
      modifies this`bufPos, state, buf
      ensures Valid()
      ensures Position() == (old(Position()) + n) % PERIOD
    {
      hide Layout, PositionOf, Block, Previous, Next;
      ghost var start := Position();
      var left := n;
      if n == 0 {
        return;
      }
      if bufPos < 64 {
        var avail := 64 - bufPos;
        if left < avail {
          PositionAdvances(Counter(), bufPos, left);
          bufPos := bufPos + left;
          return;
        }
        PositionAdvances(Counter(), bufPos, avail);
        bufPos := 64;
        left := left - avail;
        AddModulo(start + avail, left);
      }
      assert (Position() + left) % PERIOD == (start + n) % PERIOD;
      SkipAligned(left);
    }

    /** Steps 2 and 3 of `DiscardBytesFast`: whole blocks by the counter, the rest within one block. */
    method SkipAligned(n: nat)
      requires Valid() && bufPos == 64 && n < TWO_64
      modifies this`bufPos, state, buf
      ensures Valid()
      ensures Position() == (old(Position()) + n) % PERIOD
    {
      hide Layout, PositionOf, Block, Previous, Next;
      var blockCount, rem := n / 64, n % 64;
      AddModulo(Position() + 64 * blockCount, rem);
      SkipBlocks(blockCount);
      if rem > 0 {
        PositionKeptByRefill(Counter());
        RefillBlock();
        PositionAdvances(Counter(), 0, rem);
        bufPos := rem;
      }
    }

    method SkipBlocks(k: nat)
      requires Valid() && bufPos == 64 && k < TWO_64
      modifies this`bufPos, state
      ensures Valid() && bufPos == 64
      ensures Position() == (old(Position()) + 64 * k) % PERIOD
    {
      hide Layout, PositionOf, Block, Previous, Next;
      PositionJumps(Counter(), k);
      if k > 0 {
        SetCounter((Counter() + k) % TWO_64);
      }
    }
  }

  /**
   Seeking refines reading: of two generators in the same abstract state, let one read and drop
   `dropped.Length` bytes and the other skip that many.  All later output is the same.
   */
  method SeekAgreesWithReading(reader: ChaCha20Rng, seeker: ChaCha20Rng, dropped: array<byte>,
                               fromReader: array<byte>, fromSeeker: array<byte>)
    requires reader.Valid() && seeker.Valid()
    requires reader.blocks == seeker.blocks && reader.Position() == seeker.Position()
    requires reader != seeker && reader.state != seeker.state && reader.buf != seeker.buf
    requires {dropped, fromReader, fromSeeker} !! {reader.buf, seeker.buf}
    requires fromReader != fromSeeker && fromReader.Length == fromSeeker.Length
    requires dropped.Length < TWO_64
    modifies reader`bufPos, reader.state, reader.buf, seeker`bufPos, seeker.state, seeker.buf
    modifies dropped, fromReader, fromSeeker
    ensures reader.Valid() && seeker.Valid() && reader.Position() == seeker.Position()
    ensures fromReader[..] == fromSeeker[..]
  {
    hide Keystream, ChaCha20Rng.Valid, ChaCha20Rng.Position;
    reader.FillBytes(dropped);
    seeker.DiscardBytesFast(dropped.Length);
    reader.FillBytes(fromReader);
    seeker.FillBytes(fromSeeker);
  }
}
