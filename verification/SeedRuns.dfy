/**
 All runs of the masterseed plugin under concurrent requests and seed insertions.

 One step is one critical section (insert a seed, reserve a range) or one derivation, which
 happens outside the lock, at any later time and in any order.
 */
module SeedRuns {
  import opened Words
  import opened Outcomes
  import opened ChaChaRng
  import opened MasterSeed
  import opened SeedAllocator
  import opened RandIndex
  import opened Hex

  /** A successful reservation: `entry` numbers the insertions into the ring from 0. */
  datatype Grant = Grant(entry: nat, seed: string, start: nat, count: nat)

  /** `evicted + ring` are all entries ever inserted, in order; `replies[k]` answers `grants[k]`. */
  datatype System = System(evicted: seq<Entry>, ring: seq<Entry>, grants: seq<Grant>,
                           replies: map<nat, Result<seq<string>>>) {
    function Entries(): seq<Entry> {
      evicted + ring
    }
  }

  const INITIAL: System := System([], [], [], map[])

  datatype Step =
    | Insert(seed: string)
    | Reserve(count: nat, idx: nat)
    | Derive(grant: nat)

  predicate Enabled(c: Config, s: System, step: Step)
    requires ValidConfig(c)
  {
    match step
    case Insert(_) => true
    case Reserve(count, idx) =>
      && ValidRing(c, s.ring) && idx < |s.ring| && count <= MAX_WORD
      && Reserved(c, s.ring, count, idx).Ok?
    case Derive(k) => k < |s.grants| && k !in s.replies
  }

  function Apply(c: Config, s: System, step: Step): (t: System)
    requires ValidConfig(c) && Enabled(c, s, step)
  {
    match step
    case Insert(seed) =>
      var leaving := if Accepts(seed) && |s.ring| + 1 > c.maxMasterSeeds then (s.ring + [Entry(seed, 0)])[..1] else [];
      s.(ring := Added(c, s.ring, seed), evicted := s.evicted + leaving)
    case Reserve(count, idx) =>
      var r := Reserved(c, s.ring, count, idx).value;
      s.(ring := r.ring, grants := s.grants + [Grant(|s.evicted| + idx, r.seed, r.start, count)])
    case Derive(k) =>
      var g := s.grants[k];
      s.(replies := s.replies[k := Derived(g.seed, g.count, g.start, c.trngSize)])
  }

  /** The state after a sequence of steps, if every one of them is enabled. */
  function Run(c: Config, steps: seq<Step>): (s: Option<System>)
    requires ValidConfig(c)
  {
    if steps == [] then Some(INITIAL)
    else
      match Run(c, steps[..|steps| - 1])
      case None => None
      case Some(s) =>
        var step := steps[|steps| - 1];
        if Enabled(c, s, step) then Some(Apply(c, s, step)) else None
  }

  // ---------- what the grants hand out ----------

  function BlocksOfSeed(seed: string): (b: Blocks)
    requires ParseTrngBlock(seed).Ok?
  {
    BlocksOf(ParseTrngBlock(seed).value)
  }

  /** The bytes of grant `g`, as a stretch of the keystream `blocks`. */
  function GrantBytes(c: Config, blocks: Blocks, g: Grant): (b: Bytes)
    requires ValidConfig(c)
  {
    Keystream(blocks, g.start, g.count * c.trngSize)
  }

  /** The bytes of all grants on entry `e`, concatenated in the order of reservation. */
  function Handed(c: Config, blocks: Blocks, grants: seq<Grant>, e: nat): (b: Bytes)
    requires ValidConfig(c)
  {
    if grants == [] then []
    else
      var n := |grants| - 1;
      var before := Handed(c, blocks, grants[..n], e);
      if grants[n].entry == e then before + GrantBytes(c, blocks, grants[n]) else before
  }

  /** The decoded replies for entry `e`, in the order of reservation; `None` while one is outstanding. */
  function Served(replies: map<nat, Result<seq<string>>>, grants: seq<Grant>, e: nat): (b: Option<Bytes>) {
    if grants == [] then Some([])
    else
      var n := |grants| - 1;
      var before := Served(replies, grants[..n], e);
      if grants[n].entry != e then before
      else if n !in replies || replies[n].Err? then None
      else
        match (before, DecodedBytes(replies[n].value))
        case (Some(b), Some(last)) => Some(b + last)
        case _ => None
  }

  // ---------- the invariant ----------

  ghost predicate EntryInv(c: Config, s: System, e: nat)
    requires ValidConfig(c) && e < |s.Entries()|
  {
    var entry := s.Entries()[e];
    && ValidEntry(entry)
    && Handed(c, BlocksOfSeed(entry.seed), s.grants, e) == Keystream(BlocksOfSeed(entry.seed), 0, entry.offset)
  }

  ghost predicate GrantInv(c: Config, s: System, k: nat)
    requires ValidConfig(c) && k < |s.grants|
  {
    var g := s.grants[k];
    && g.entry < |s.Entries()| && g.seed == s.Entries()[g.entry].seed
    && 0 < g.count <= MAX_WORD
    && g.start + g.count * c.trngSize <= s.Entries()[g.entry].offset
    && (k in s.replies ==> s.replies[k] == Derived(g.seed, g.count, g.start, c.trngSize))
  }

  /** Ranges on one entry are disjoint and granted in increasing order. */
  ghost predicate Ordered(c: Config, grants: seq<Grant>)
    requires ValidConfig(c)
  {
    forall j, k :: 0 <= j < k < |grants| && grants[j].entry == grants[k].entry ==>
      grants[j].start + grants[j].count * c.trngSize <= grants[k].start
  }

  ghost predicate Inv(c: Config, s: System)
    requires ValidConfig(c)
  {
    && ValidRing(c, s.ring)
    && Ordered(c, s.grants)
    && (forall k :: k in s.replies ==> k < |s.grants|)
    && (forall e :: 0 <= e < |s.Entries()| ==> EntryInv(c, s, e))
    && (forall k :: 0 <= k < |s.grants| ==> GrantInv(c, s, k))
  }

  lemma {:induction false} NothingHanded(c: Config, blocks: Blocks, grants: seq<Grant>, e: nat)
    requires ValidConfig(c)
    requires forall k :: 0 <= k < |grants| ==> grants[k].entry != e
    ensures Handed(c, blocks, grants, e) == []
  {
    hide GrantBytes;
    if grants != [] {
      NothingHanded(c, blocks, grants[..|grants| - 1], e);
    }
  }

  lemma EmptyKeystream(blocks: Blocks)
    ensures Keystream(blocks, 0, 0) == []
  {
  }

  lemma InsertAppendsEntry(c: Config, s: System, seed: string)
    requires ValidConfig(c) && ValidRing(c, s.ring)
    ensures var t := Apply(c, s, Insert(seed));
            && t.Entries() == (if Accepts(seed) then s.Entries() + [Entry(seed, 0)] else s.Entries())
            && ValidRing(c, t.ring)
  {
    hide ParseTrngBlock;
    var whole := s.ring + [Entry(seed, 0)];
    assert whole == whole[..1] + whole[1..];
  }

  lemma InsertKeepsInv(c: Config, s: System, seed: string)
    requires ValidConfig(c) && Inv(c, s)
    ensures Inv(c, Apply(c, s, Insert(seed)))
  {
    hide ParseTrngBlock, Keystream, Derived, BlocksOfSeed, Handed;
    var t := Apply(c, s, Insert(seed));
    InsertAppendsEntry(c, s, seed);
    forall e | 0 <= e < |t.Entries()|
      ensures EntryInv(c, t, e)
    {
      if e < |s.Entries()| {
        assert EntryInv(c, s, e);
      } else {
        var blocks := BlocksOfSeed(seed);
        forall k | 0 <= k < |s.grants|
          ensures s.grants[k].entry != e
        {
          assert GrantInv(c, s, k);
        }
        NothingHanded(c, blocks, s.grants, e);
        EmptyKeystream(blocks);
      }
    }
    forall k | 0 <= k < |t.grants|
      ensures GrantInv(c, t, k)
    {
      assert GrantInv(c, s, k);
    }
  }

  lemma ReserveMovesCursor(c: Config, s: System, count: nat, idx: nat)
    requires ValidConfig(c) && Enabled(c, s, Reserve(count, idx))
    ensures var t, e := Apply(c, s, Reserve(count, idx)), |s.evicted| + idx;
            && e < |s.Entries()| && s.Entries()[e] == s.ring[idx] && count > 0
            && var end := s.ring[idx].offset + count * c.trngSize;
            && end <= MAX_UINT64 && ValidRing(c, t.ring)
            && t.Entries() == s.Entries()[e := Entry(s.ring[idx].seed, end)]
            && t.grants == s.grants + [Grant(e, s.ring[idx].seed, s.ring[idx].offset, count)]
  {
    hide ParseTrngBlock;
  }

  lemma ReserveKeepsInv(c: Config, s: System, count: nat, idx: nat)
    requires ValidConfig(c) && Inv(c, s) && Enabled(c, s, Reserve(count, idx))
    ensures Inv(c, Apply(c, s, Reserve(count, idx)))
  {
    hide ParseTrngBlock, Keystream, Derived, BlocksOfSeed;
    var t, e0 := Apply(c, s, Reserve(count, idx)), |s.evicted| + idx;
    ReserveMovesCursor(c, s, count, idx);
    var g := t.grants[|s.grants|];
    assert t.grants[..|s.grants|] == s.grants;
    forall e | 0 <= e < |t.Entries()|
      ensures EntryInv(c, t, e)
    {
      assert EntryInv(c, s, e);
      if e == e0 {
        KeystreamConcat(BlocksOfSeed(g.seed), 0, g.start, count * c.trngSize);
      }
    }
    forall k | 0 <= k < |t.grants|
      ensures GrantInv(c, t, k)
    {
      if k < |s.grants| {
        assert GrantInv(c, s, k);
      }
    }
    forall j, k | 0 <= j < k < |t.grants| && t.grants[j].entry == t.grants[k].entry
      ensures t.grants[j].start + t.grants[j].count * c.trngSize <= t.grants[k].start
    {
      assert GrantInv(c, s, j);
    }
  }

  lemma DeriveKeepsInv(c: Config, s: System, k0: nat)
    requires ValidConfig(c) && Inv(c, s) && Enabled(c, s, Derive(k0))
    ensures Inv(c, Apply(c, s, Derive(k0)))
  {
    hide ParseTrngBlock, Keystream, Derived, BlocksOfSeed, Handed;
    var t := Apply(c, s, Derive(k0));
    forall e | 0 <= e < |t.Entries()|
      ensures EntryInv(c, t, e)
    {
      assert EntryInv(c, s, e);
    }
    forall k | 0 <= k < |t.grants|
      ensures GrantInv(c, t, k)
    {
      assert GrantInv(c, s, k);
    }
  }

  lemma {:induction false} RunKeepsInv(c: Config, steps: seq<Step>)
    requires ValidConfig(c)
    ensures var s := Run(c, steps); s.Some? ==> Inv(c, s.value)
  {
    hide Apply, EntryInv, GrantInv, Enabled;
    if steps != [] {
      var n := |steps| - 1;
      RunKeepsInv(c, steps[..n]);
      var s := Run(c, steps[..n]);
      if s.Some? && Enabled(c, s.value, steps[n]) {
        match steps[n]
        case Insert(seed) => InsertKeepsInv(c, s.value, seed);
        case Reserve(count, idx) => ReserveKeepsInv(c, s.value, count, idx);
        case Derive(k) => DeriveKeepsInv(c, s.value, k);
      }
    }
  }

  // ---------- what callers see ----------

  lemma DerivationSucceeds(c: Config, g: Grant)
    requires ValidConfig(c) && 0 < g.count <= MAX_WORD && ParseTrngBlock(g.seed).Ok?
    ensures Derived(g.seed, g.count, g.start, c.trngSize)
         == Ok(Outputs(BlocksOfSeed(g.seed), g.start, c.trngSize, g.count))
  {
    hide Output, Outputs, ParseTrngBlock, BlocksOf;
    SmallRequest(g.count, c.trngSize);
  }

  /** Every reply is a success and decodes to exactly the range that was reserved for it. */
  lemma ReplyIsItsRange(c: Config, s: System, k: nat)
    requires ValidConfig(c) && Inv(c, s) && k in s.replies
    ensures k < |s.grants| && ParseTrngBlock(s.grants[k].seed).Ok?
    ensures s.replies[k].Ok? && |s.replies[k].value| == s.grants[k].count
    ensures DecodedBytes(s.replies[k].value) == Some(GrantBytes(c, BlocksOfSeed(s.grants[k].seed), s.grants[k]))
  {
    hide ParseTrngBlock, Keystream, Derived, BlocksOfSeed, Handed, DecodedBytes, Output;
    assert GrantInv(c, s, k);
    assert EntryInv(c, s, s.grants[k].entry);
    var g := s.grants[k];
    DerivationSucceeds(c, g);
    OutputsTileKeystream(BlocksOfSeed(g.seed), g.start, c.trngSize, s.replies[k].value);
  }

  lemma {:induction false} ServedIsHanded(c: Config, s: System, e: nat, n: nat)
    requires ValidConfig(c) && Inv(c, s) && e < |s.Entries()| && n <= |s.grants|
    requires forall k :: 0 <= k < n && s.grants[k].entry == e ==> k in s.replies
    requires ParseTrngBlock(s.Entries()[e].seed).Ok?
    ensures Served(s.replies, s.grants[..n], e) == Some(Handed(c, BlocksOfSeed(s.Entries()[e].seed), s.grants[..n], e))
  {
    hide ParseTrngBlock, Keystream, Derived, BlocksOfSeed, DecodedBytes, EntryInv;
    if n > 0 {
      assert s.grants[..n][..n - 1] == s.grants[..n - 1];
      ServedIsHanded(c, s, e, n - 1);
      if s.grants[n - 1].entry == e {
        assert GrantInv(c, s, n - 1);
        ReplyIsItsRange(c, s, n - 1);
      }
    }
  }

  /**
   In every run, once every reservation on entry `e` has been answered, the decoded answers in
   reservation order are exactly the first `offset` bytes of the seed's keystream: no gap, no
   overlap.  The cursor stays below 2^64, so the block counter never wraps.
   */
  lemma ServedIsKeystreamPrefix(c: Config, steps: seq<Step>, e: nat)
    requires ValidConfig(c) && Run(c, steps).Some?
    requires e < |Run(c, steps).value.Entries()|
    requires var s := Run(c, steps).value; forall k :: 0 <= k < |s.grants| && s.grants[k].entry == e ==> k in s.replies
    ensures var s := Run(c, steps).value;
            var entry := s.Entries()[e];
            && ValidEntry(entry) && entry.offset < PERIOD
            && Served(s.replies, s.grants, e) == Some(Keystream(BlocksOfSeed(entry.seed), 0, entry.offset))
  {
    hide ParseTrngBlock, Keystream, BlocksOfSeed, Handed, Served, Run;
    RunKeepsInv(c, steps);
    var s := Run(c, steps).value;
    assert EntryInv(c, s, e);
    ServedIsHanded(c, s, e, |s.grants|);
    assert s.grants[..|s.grants|] == s.grants;
  }

  /**
   The same in terms of the key that the entry's seed spells, in either case: what is served is that key's own
   keystream.
   */
  lemma ServedIsOfItsKey(c: Config, steps: seq<Step>, e: nat, key: Key)
    requires ValidConfig(c) && Run(c, steps).Some?
    requires var s := Run(c, steps).value;
             && e < |s.Entries()| && EncodeHex(key) == LowerCase(s.Entries()[e].seed)
             && forall k :: 0 <= k < |s.grants| && s.grants[k].entry == e ==> k in s.replies
    ensures var s := Run(c, steps).value;
            var offset := s.Entries()[e].offset;
            offset < PERIOD && Served(s.replies, s.grants, e) == Some(Keystream(BlocksOf(key), 0, offset))
  {
    hide ParseTrngBlock, Keystream, Served, Run, EncodeHex, LowerCase, BlocksOf;
    ServedIsKeystreamPrefix(c, steps, e);
    SeedSpellsKey(Run(c, steps).value.Entries()[e].seed, key);
  }

  /** In every run, two ranges granted on one entry never overlap, whether or not they are answered yet. */
  lemma RangesAreDisjoint(c: Config, steps: seq<Step>, j: nat, k: nat)
    requires ValidConfig(c) && Run(c, steps).Some?
    requires j < k < |Run(c, steps).value.grants|
    requires var s := Run(c, steps).value; s.grants[j].entry == s.grants[k].entry
    ensures var s := Run(c, steps).value;
            s.grants[j].start + s.grants[j].count * c.trngSize <= s.grants[k].start
  {
    hide Run, EntryInv, GrantInv;
    RunKeepsInv(c, steps);
  }

  /** Leaving the ring freezes an entry: no later step changes an evicted entry, and eviction keeps its cursor. */
  lemma EvictedEntriesAreFrozen(c: Config, s: System, step: Step)
    requires ValidConfig(c) && ValidRing(c, s.ring) && Enabled(c, s, step)
    ensures var t := Apply(c, s, step);
            && |s.evicted| <= |t.evicted| && s.evicted == t.evicted[..|s.evicted|]
            && |s.Entries()| <= |t.Entries()|
            && (!step.Reserve? ==> s.Entries() == t.Entries()[..|s.Entries()|])
  {
    hide ParseTrngBlock, Derived;
    match step
    case Insert(seed) => InsertAppendsEntry(c, s, seed);
    case Reserve(count, idx) => ReserveMovesCursor(c, s, count, idx);
    case Derive(_) =>
  }

  // ---------- entries and grants are what was asked for ----------

  /** The seeds inserted by the steps, without those that are not 64 hexadecimal digits. */
  function Inserted(steps: seq<Step>): (seeds: seq<string>) {
    if steps == [] then []
    else
      var last := steps[|steps| - 1];
      Inserted(steps[..|steps| - 1])
      + (if last.Insert? && |last.seed| == 64 && AllHexDigits(last.seed) then [last.seed] else [])
  }

  /** The counts asked for by the reservations among the steps. */
  function Requested(steps: seq<Step>): (counts: seq<nat>) {
    if steps == [] then []
    else
      var last := steps[|steps| - 1];
      Requested(steps[..|steps| - 1]) + (if last.Reserve? then [last.count] else [])
  }

  ghost predicate Follows(s: System, seeds: seq<string>, counts: seq<nat>) {
    && |s.Entries()| == |seeds| && (forall e :: 0 <= e < |seeds| ==> s.Entries()[e].seed == seeds[e])
    && |s.grants| == |counts| && (forall k :: 0 <= k < |counts| ==> s.grants[k].count == counts[k])
  }

  /**
   In every run, entry `e` is the `e`-th good seed inserted, and grant `k` has the count of the `k`-th
   reservation.
   */
  lemma {:induction false} RunFollowsSteps(c: Config, steps: seq<Step>)
    requires ValidConfig(c) && Run(c, steps).Some?
    ensures Follows(Run(c, steps).value, Inserted(steps), Requested(steps))
  {
    hide ParseTrngBlock, Derived, AllHexDigits;
    if steps != [] {
      var n := |steps| - 1;
      RunFollowsSteps(c, steps[..n]);
      RunKeepsInv(c, steps[..n]);
      var s := Run(c, steps[..n]).value;
      match steps[n]
      case Insert(seed) =>
        SeedExactly(seed);
        InsertAppendsEntry(c, s, seed);
      case Reserve(count, idx) => ReserveMovesCursor(c, s, count, idx);
      case Derive(_) =>
    }
  }
}
