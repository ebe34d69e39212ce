/** Deriving outputs from one hex-encoded master seed at a byte offset of its keystream. */
module MasterSeed {
  import opened Words
  import opened Outcomes
  import opened Hex
  import opened ChaChaRng

  // ---------- checked arithmetic ----------

  const MAX_UINT64: nat := 0xFFFF_FFFF_FFFF_FFFF
  const MAX_INT: nat := 0x7FFF_FFFF_FFFF_FFFF

  /** `mulUint64Checked`: the product, unless it exceeds 64 bits. */
  function MulChecked(a: nat, b: nat): (r: Option<nat>)
    requires a <= MAX_UINT64 && b <= MAX_UINT64
    ensures r == if a * b < 0x1_0000_0000_0000_0000 then Some(a * b) else None
  {
    if a == 0 || b == 0 then Some(0)
    else if a > MAX_UINT64 / b then
      QuotientBound(a, b);
      None
    else
      QuotientBound(a, b);
      Some(a * b)
  }

  lemma QuotientBound(a: nat, b: nat)
    requires b > 0
    ensures a <= MAX_UINT64 / b <==> a * b <= MAX_UINT64
  {
    var q := MAX_UINT64 / b;
    assert MAX_UINT64 == q * b + MAX_UINT64 % b;
    if a <= q {
      assert a * b <= q * b;
    } else {
      assert a * b >= (q + 1) * b;
    }
  }

  /** `addUint64Checked`: the sum, unless it exceeds 64 bits. */
  function AddChecked(a: nat, b: nat): (r: Option<nat>)
    requires a <= MAX_UINT64 && b <= MAX_UINT64
    ensures r == if a + b < 0x1_0000_0000_0000_0000 then Some(a + b) else None
  {
    if a > MAX_UINT64 - b then None else Some(a + b)
  }

  // ---------- derivation ----------

  /** `parseTRNGBlock`. */
  function ParseTrngBlock(seed: string): (r: Result<Key>) {
    match DecodeHex(seed)
    case None => Err("failed to decode master seed hex")
    case Some(raw) => if |raw| != 32 then Err("master seed length") else Ok(raw)
  }

  /** A key's hex text is a seed for that key. */
  lemma SeedOfKey(key: Key)
    ensures ParseTrngBlock(EncodeHex(key)) == Ok(key)
  {
    HexRoundTrip(key);
  }

  /** Seeds are exactly the texts of 64 hexadecimal digits, and each spells its key up to case. */
  lemma SeedExactly(seed: string)
    ensures ParseTrngBlock(seed).Ok? <==> |seed| == 64 && AllHexDigits(seed)
    ensures ParseTrngBlock(seed).Ok? ==> EncodeHex(ParseTrngBlock(seed).value) == LowerCase(seed)
  {
    hide EncodeHex, DecodeHex, AllHexDigits, LowerCase;
    DecodesExactly(seed);
  }

  /** So the key that is spelled is the key that is used. */
  lemma SeedSpellsKey(seed: string, key: Key)
    requires EncodeHex(key) == LowerCase(seed)
    ensures ParseTrngBlock(seed) == Ok(key)
  {
    hide EncodeHex, DecodeHex, ParseTrngBlock, IsHexDigit, Lower;
    EncodesDigits(key);
    forall i | 0 <= i < |seed| ensures IsHexDigit(seed[i]) {
      LowerIsHexDigit(seed[i]);
      assert EncodeHex(key)[i] == Lower(seed[i]);
    }
    SeedExactly(seed);
    HexRoundTrip(key);
    HexRoundTrip(ParseTrngBlock(seed).value);
  }

  function OutputLength(outLen: int): (n: nat)
    ensures 0 < n <= 1024
    ensures n == outLen || (n == 32 && !(0 < outLen <= 1024))
  {
    if outLen <= 0 || outLen > 1024 then 32 else outLen
  }

  /** Output `i` of a derivation: its own slice of the keystream, hex-encoded. */
  function Output(blocks: Blocks, offset: nat, outLen: nat, i: nat): (s: string) {
    EncodeHex(Keystream(blocks, offset + i * outLen, outLen))
  }

  function Outputs(blocks: Blocks, offset: nat, outLen: nat, n: nat): (r: seq<string>)
    ensures |r| == n && forall i :: 0 <= i < n ==> r[i] == Output(blocks, offset, outLen, i)
  {
    seq(n, i requires 0 <= i < n => Output(blocks, offset, outLen, i))
  }

  /** What `DeriveBulkAtOffset` must return. */
  function Derived(seed: string, n: int, offset: nat, outLen: int): (r: Result<seq<string>>) {
    hide BlocksOf;
    if n <= 0 then Ok([])
    else
      var len := OutputLength(outLen);
      if n * len > MAX_UINT64 then Err("byte requirement overflow")
      else if n * len > MAX_INT then Err("request too large")
      else
        match ParseTrngBlock(seed)
        case Err(e) => Err(e)
        case Ok(key) => Ok(Outputs(BlocksOf(key), offset, len, n))
  }

  /** When a derivation succeeds, in numbers. */
  lemma DerivesExactlyWhen(seed: string, n: int, offset: nat, outLen: int)
    ensures var len := if 0 < outLen <= 1024 then outLen else 32;
            Derived(seed, n, offset, outLen).Ok? <==>
              n <= 0 || (n * len <= 0x7FFF_FFFF_FFFF_FFFF && |seed| == 64 && AllHexDigits(seed))
  {
    hide ParseTrngBlock, BlocksOf, Outputs;
    SeedExactly(seed);
  }

  /** What it yields: output `i` is the hex text of its slice of the keystream of the key that the seed spells. */
  lemma DerivesFromKey(seed: string, key: Key, n: int, offset: nat, outLen: int, len: nat)
    requires EncodeHex(key) == LowerCase(seed) && Derived(seed, n, offset, outLen).Ok? && n > 0
    requires len == if 0 < outLen <= 1024 then outLen else 32
    ensures var r := Derived(seed, n, offset, outLen).value;
            |r| == n && forall i :: 0 <= i < n ==> r[i] == HexSlice(BlocksOf(key), offset, i, len)
  {
    hide ParseTrngBlock, BlocksOf, EncodeHex, Keystream, LowerCase, Output, HexSlice;
    SeedSpellsKey(seed, key);
    forall i | 0 <= i < n ensures Output(BlocksOf(key), offset, len, i) == HexSlice(BlocksOf(key), offset, i, len) {
      OutputIsSlice(BlocksOf(key), offset, i, len);
    }
  }

  lemma OutputIsSlice(blocks: Blocks, offset: nat, i: nat, len: nat)
    ensures Output(blocks, offset, len, i) == HexSlice(blocks, offset, i, len)
  {
    hide EncodeHex, KeystreamByte;
    var slice := seq(len, j requires 0 <= j < len => KeystreamByte(blocks, offset + i * len + j));
    assert Keystream(blocks, offset + i * len, len) == slice;
  }

  /** The hex text of bytes `offset + i * len` to `offset + (i + 1) * len - 1` of the keystream. */
  function HexSlice(blocks: Blocks, offset: nat, i: nat, len: nat): string {
    EncodeHex(seq(len, j requires 0 <= j < len => KeystreamByte(blocks, offset + i * len + j)))
  }

  lemma SliceBounds(i: nat, n: nat, len: nat)
    requires i < n
    ensures 0 <= i * len && (i + 1) * len == i * len + len <= n * len
  {
  }

  /** `DeriveBulkAtOffset`. */
  method DeriveBulkAtOffset(seed: string, n: int, offset: nat, outLen: int) returns (r: Result<seq<string>>)
    requires n <= MAX_INT && offset <= MAX_UINT64
    ensures r == Derived(seed, n, offset, outLen)
  {
    hide ChaCha20Rng.Valid, ChaCha20Rng.Position, Keystream, BlocksOf, EncodeHex;
    if n <= 0 {
      return Ok([]);
    }
    var len := OutputLength(outLen);
    var need := MulChecked(n, len);
    if need.None? {
      return Err("byte requirement overflow");
    }
    if need.value > MAX_INT {
      return Err("request too large");
    }
    var parsed := ParseTrngBlock(seed);
    if parsed.Err? {
      return Err(parsed.error);
    }
    var bytes := ReadAt(parsed.value, offset, need.value);
    ghost var blocks := BlocksOf(parsed.value);
    var results: seq<string> := [];
    for i := 0 to n
      invariant |results| == i
      invariant forall j :: 0 <= j < i ==> results[j] == Output(blocks, offset, len, j)
    {
      SliceBounds(i, n, len);
      var start := i * len;
      KeystreamSlice(blocks, offset, need.value, start, start + len);
      results := results + [EncodeHex(bytes[start..start + len])];
    }
    assert results == Outputs(blocks, offset, len, n);
    r := Ok(results);
  }

  /** The generator part of `DeriveBulkAtOffset`: new generator, seek, one read. */
  method ReadAt(key: Key, offset: nat, n: nat) returns (bytes: Bytes)
    requires offset <= MAX_UINT64
    ensures bytes == Keystream(BlocksOf(key), offset, n)
  {
    hide ChaCha20Rng.Valid, ChaCha20Rng.Position, Keystream, BlocksOf;
    var rng := new ChaCha20Rng(key);
    rng.DiscardBytesFast(offset);
    var buf := new byte[n];
    rng.FillBytes(buf);
    bytes := buf[..];
  }

  // ---------- what a derivation hands out ----------

  /** The bytes behind a list of hex outputs, in order. */
  function DecodedBytes(outputs: seq<string>): (b: Option<Bytes>) {
    if outputs == [] then Some([])
    else
      match (DecodedBytes(outputs[..|outputs| - 1]), DecodeHex(outputs[|outputs| - 1]))
      case (Some(before), Some(last)) => Some(before + last)
      case _ => None
  }

  /** Consecutive outputs decode to one unbroken stretch of the keystream. */
  lemma {:induction false} OutputsTileKeystream(blocks: Blocks, offset: nat, outLen: nat, outputs: seq<string>)
    requires forall i :: 0 <= i < |outputs| ==> outputs[i] == Output(blocks, offset, outLen, i)
    ensures DecodedBytes(outputs) == Some(Keystream(blocks, offset, |outputs| * outLen))
  {
    hide Keystream, EncodeHex, DecodeHex;
    var n := |outputs|;
    if n == 0 {
      assert Keystream(blocks, offset, 0) == [];
    } else {
      OutputsTileKeystream(blocks, offset, outLen, outputs[..n - 1]);
      HexRoundTrip(Keystream(blocks, offset + (n - 1) * outLen, outLen));
      KeystreamConcat(blocks, offset, (n - 1) * outLen, outLen);
      assert (n - 1) * outLen + outLen == n * outLen;
    }
  }
}
