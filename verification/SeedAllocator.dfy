/**
 The masterseed plugin: a bounded FIFO ring of seeds, each with a byte cursor.

 The ring operations are stated once as functions.  The class `Plugin` performs them in place;
 the runs in `SeedRuns` interleave them with derivations that happen outside the lock.
 */
module SeedAllocator {
  import opened Words
  import opened Outcomes
  import opened MasterSeed
  import opened RandIndex

  datatype Entry = Entry(seed: string, offset: nat)

  datatype Config = Config(trngSize: int, maxMasterSeeds: int, maxCountPerRequest: int)

  /** What the clamps of `NewPlugin` establish; `int` is 64 bits wide. */
  predicate ValidConfig(c: Config) {
    && 0 < c.trngSize <= 1024
    && 0 < c.maxMasterSeeds <= MAX_INT
    && 0 < c.maxCountPerRequest <= MAX_INT
  }

  function Clamped(c: Config): (r: Config)
    ensures ValidConfig(c) ==> r == c
    ensures c.maxMasterSeeds <= MAX_INT && c.maxCountPerRequest <= MAX_INT ==> ValidConfig(r)
  {
    Config(
      if c.trngSize <= 0 || c.trngSize > 1024 then 32 else c.trngSize,
      if c.maxMasterSeeds <= 0 then 100 else c.maxMasterSeeds,
      if c.maxCountPerRequest <= 0 then 25000 else c.maxCountPerRequest)
  }

  predicate ValidEntry(e: Entry) {
    ParseTrngBlock(e.seed).Ok? && e.offset <= MAX_UINT64
  }

  predicate ValidRing(c: Config, ring: seq<Entry>) {
    |ring| <= c.maxMasterSeeds && forall i :: 0 <= i < |ring| ==> ValidEntry(ring[i])
  }

  predicate Accepts(seed: string) {
    seed != "" && ParseTrngBlock(seed).Ok?
  }

  /** The ring after `addMasterSeed`; the oldest entry leaves when there are too many. */
  function Added(c: Config, ring: seq<Entry>, seed: string): (r: seq<Entry>) {
    if !Accepts(seed) then ring
    else if |ring| + 1 > c.maxMasterSeeds then (ring + [Entry(seed, 0)])[1..]
    else ring + [Entry(seed, 0)]
  }

  datatype Reservation = Reservation(seed: string, start: nat, ring: seq<Entry>)

  /** `reserveSeedOffset` once the ring index `idx` has been drawn. */
  function Reserved(c: Config, ring: seq<Entry>, count: int, idx: nat): (r: Result<Reservation>)
    requires ValidConfig(c) && ValidRing(c, ring) && idx < |ring|
    ensures r.Ok? ==> ValidRing(c, r.value.ring)
  {
    if count <= 0 then Err("invalid count")
    else if count > c.maxCountPerRequest then Err("count too large")
    else if count * c.trngSize > MAX_UINT64 then Err("byte requirement overflow")
    else
      var e := ring[idx];
      var end := e.offset + count * c.trngSize;
      if end > MAX_UINT64 then Err("seed offset overflow")
      else Ok(Reservation(e.seed, e.offset, ring[idx := Entry(e.seed, end)]))
  }

  /** The ring index that the first accepted word of `entropy` selects. */
  ghost predicate Drawn(ring: seq<Entry>, entropy: seq<u32>, idx: nat) {
    && |ring| % TWO_32 != 0 && idx < |ring|
    && exists k: nat :: FirstAccepted(|ring| % TWO_32, entropy, k) && idx == entropy[k] as nat % (|ring| % TWO_32)
  }

  /**
   Why no range can be reserved: the count, a ring that is empty (or a multiple of 2^32 long), the random
   source, or the end of the keystream.
   */
  ghost predicate Refused(c: Config, ring: seq<Entry>, count: int, entropy: seq<u32>)
  {
    || BadCount(c, count)
    || |ring| % TWO_32 == 0
    || NoneAccepted(|ring| % TWO_32, entropy)
    || (exists idx: nat :: Drawn(ring, entropy, idx) && ring[idx].offset + count * c.trngSize > MAX_UINT64)
  }

  /** The checks before an index is drawn. */
  predicate BadCount(c: Config, count: int) {
    count <= 0 || count > c.maxCountPerRequest || count * c.trngSize > MAX_UINT64
  }

  class Plugin {
    const config: Config
    var masterSeeds: seq<Entry>

    ghost predicate Valid()
      reads this
    {
      ValidConfig(config) && ValidRing(config, masterSeeds)
    }

    /** `NewPlugin`, from the configured values. */
    constructor (configured: Config)
      requires configured.maxMasterSeeds <= MAX_INT && configured.maxCountPerRequest <= MAX_INT
      ensures Valid() && masterSeeds == []
      ensures config.trngSize == if 0 < configured.trngSize <= 1024 then configured.trngSize else 32
      ensures config.maxMasterSeeds == if 0 < configured.maxMasterSeeds then configured.maxMasterSeeds else 100
      ensures config.maxCountPerRequest
           == if 0 < configured.maxCountPerRequest then configured.maxCountPerRequest else 25000
    {
      config := Clamped(configured);
      masterSeeds := [];
    }

    /** `addMasterSeed`. */
    method AddMasterSeed(seed: string)
      requires Valid()
      modifies this
      ensures Valid()
      ensures masterSeeds == Added(config, old(masterSeeds), seed)
    {
      if seed == "" {
        return;
      }
      var parsed := ParseTrngBlock(seed);
      if parsed.Err? {
        return;
      }
      masterSeeds := masterSeeds + [Entry(seed, 0)];
      if |masterSeeds| > config.maxMasterSeeds {
        masterSeeds := masterSeeds[1..];
      }
    }

    /** `reserveSeedOffset`, all of it under the lock; `entropy` is what the random source yields. */
    method ReserveSeedOffset(count: int, entropy: seq<u32>) returns (r: Result<(string, nat)>)
      requires Valid() && count <= MAX_INT
      modifies this
      ensures Valid()
      ensures r.Err? ==> masterSeeds == old(masterSeeds) && Refused(config, old(masterSeeds), count, entropy)
      ensures r.Ok? ==> exists idx: nat ::
                && Drawn(old(masterSeeds), entropy, idx)
                && Reserved(config, old(masterSeeds), count, idx)
                   == Ok(Reservation(r.value.0, r.value.1, masterSeeds))
    {
      if count <= 0 {
        return Err("invalid count");
      }
      if count > config.maxCountPerRequest {
        return Err("count too large");
      }
      var need := MulChecked(count, config.trngSize);
      if need.None? {
        return Err("byte requirement overflow");
      }
      if |masterSeeds| == 0 {
        return Err("no master seed available");
      }
      var drawn := CryptoRandIndex(|masterSeeds|, entropy);
      if drawn.Err? {
        return Err(drawn.error);
      }
      var idx := drawn.value;
      var e := masterSeeds[idx];
      var end := AddChecked(e.offset, need.value);
      if end.None? {
        return Err("seed offset overflow");
      }
      masterSeeds := masterSeeds[idx := Entry(e.seed, end.value)];
      r := Ok((e.seed, e.offset));
      assert Reserved(config, old(masterSeeds), count, idx) == Ok(Reservation(e.seed, e.offset, masterSeeds));
    }

    /** `GetSeeds`. */
    method GetSeeds(requested: u32, entropy: seq<u32>) returns (r: Result<seq<string>>)
      requires Valid()
      modifies this
      ensures Valid()
      ensures r.Err? ==> masterSeeds == old(masterSeeds) && Refused(config, old(masterSeeds), Count(requested), entropy)
      ensures r.Ok? ==> |r.value| == if requested == 0 then 1 else requested as int
      ensures r.Ok? ==> exists idx: nat ::
                && Drawn(old(masterSeeds), entropy, idx)
                && ServedFrom(config, old(masterSeeds), masterSeeds, Count(requested), idx, r.value)
    {
      hide Derived, ParseTrngBlock, Count, Refused, ValidRing;
      var count := Count(requested);
      var reservation := ReserveSeedOffset(count, entropy);
      if reservation.Err? {
        return Err(reservation.error);
      }
      ghost var idx: nat :| Drawn(old(masterSeeds), entropy, idx)
        && Reserved(config, old(masterSeeds), count, idx)
           == Ok(Reservation(reservation.value.0, reservation.value.1, masterSeeds));
      ReservedDerives(config, old(masterSeeds), count, idx);
      r := DeriveBulkAtOffset(reservation.value.0, count, reservation.value.1, config.trngSize);
      assert ServedFrom(config, old(masterSeeds), masterSeeds, count, idx, r.value);
    }
  }

  /** `GetSeeds` asks for at least one output; the count is a 32-bit field of the request. */
  function Count(requested: u32): (n: nat)
    ensures 0 < n <= MAX_WORD && (n == requested as int || (requested == 0 && n == 1))
  {
    if requested == 0 then 1 else requested as nat
  }

  ghost predicate ServedFrom(c: Config, before: seq<Entry>, after: seq<Entry>, count: nat, idx: nat,
                             values: seq<string>) {
    && ValidConfig(c) && ValidRing(c, before) && idx < |before|
    && var r := Reserved(c, before, count, idx);
    && r.Ok? && r.value.ring == after
    && Derived(r.value.seed, count, r.value.start, c.trngSize) == Ok(values)
  }

  /** A granted reservation can always be derived: the size and seed checks cannot fail any more. */
  lemma ReservedDerives(c: Config, ring: seq<Entry>, count: int, idx: nat)
    requires ValidConfig(c) && ValidRing(c, ring) && idx < |ring| && count <= MAX_WORD
    requires Reserved(c, ring, count, idx).Ok?
    ensures var d := Derived(ring[idx].seed, count, ring[idx].offset, c.trngSize); d.Ok? && |d.value| == count
  {
    hide Output, Outputs, ParseTrngBlock, ValidRing;
    SmallRequest(count, c.trngSize);
    EntryIsValid(c, ring, idx);
  }

  lemma EntryIsValid(c: Config, ring: seq<Entry>, idx: nat)
    requires ValidRing(c, ring) && idx < |ring|
    ensures ValidEntry(ring[idx])
  {
    hide ValidEntry;
  }

  lemma SmallRequest(count: nat, size: nat)
    requires count <= MAX_WORD && size <= 1024
    ensures count * size <= MAX_INT
  {
    assert MAX_WORD * size == count * size + (MAX_WORD - count) * size;
    assert (MAX_WORD - count) * size >= 0;
    assert MAX_WORD * size <= MAX_WORD * 1024;
  }
}
