/**
 Publications of the beacon: when a success raises the head's number by exactly one, runs in which it does
 not, and runs of every length.
 */
module BeaconPublications {
  import opened Outcomes
  import opened Words
  import opened BeaconChain

  // ---------- the head that is replaced ----------

  /** No publication under this name falls between the two moments. */
  ghost predicate Undisturbed(log: seq<Publication>, name: string, from: nat, to: nat)
    requires to <= |log|
  {
    forall j :: from <= j < to ==> log[j].name != name
  }

  lemma {:induction false} HeadStays(log: seq<Publication>, name: string, from: nat, to: nat)
    requires from <= to <= |log| && Undisturbed(log, name, from, to)
    ensures HeadAfter(log[..to], name) == HeadAfter(log[..from], name)
  {
    if from < to {
      HeadStays(log, name, from, to - 1);
      HeadAfterMore(log[..to - 1], log[to - 1], name);
      assert log[..to] == log[..to - 1] + [log[to - 1]];
    }
  }

  lemma {:induction false} HeadIsPublished(log: seq<Publication>, name: string)
    requires HeadAfter(log, name).Some?
    ensures exists j :: 0 <= j < |log| && log[j].cid == HeadAfter(log, name).value
  {
    var n := |log| - 1;
    if log[n].name != name {
      HeadIsPublished(log[..n], name);
      var j :| 0 <= j < n && log[..n][j].cid == HeadAfter(log, name).value;
      assert log[j].cid == HeadAfter(log, name).value;
    }
  }

  /** A name that has a head keeps having one. */
  lemma {:induction false} HeadRemains(log: seq<Publication>, name: string, from: nat, to: nat)
    requires from <= to <= |log| && HeadAfter(log[..from], name).Some?
    ensures HeadAfter(log[..to], name).Some?
  {
    hide HeadAfter;
    if from < to {
      HeadRemains(log, name, from, to - 1);
      HeadAfterMore(log[..to - 1], log[to - 1], name);
      assert log[..to] == log[..to - 1] + [log[to - 1]];
    }
  }

  lemma PublishedIsStored(cid: Block -> string, w: World, j: nat)
    requires Inv(cid, w) && j < |w.log|
    ensures w.log[j].cid in w.store
  {
    hide HeadAfter, StoreOk;
    assert PublicationOk(w, j);
  }

  lemma NumbersFit(cid: Block -> string, w: World, c: string)
    requires Inv(cid, w) && c in w.store
    ensures w.store[c].data.sequence < TWO_64
  {
    hide HeadAfter;
    assert Rooted(w.store, c);
    var n: nat :| Chain(w.store, c, n);
  }

  lemma SuccessorIsInjective(a: nat, b: nat)
    requires a < TWO_64 && b < TWO_64
    ensures Successor(a) == Successor(b) <==> a == b
  {
    assert Successor(a) == if a == TWO_64 - 1 then 0 else a + 1;
    assert Successor(b) == if b == TWO_64 - 1 then 0 else b + 1;
  }

  /**
   In every run, the head an execution publishes continues the head it read, and replaces the head that the name
   has just before. It continues the head it replaces if and only if that is still the head it read, and the
   number rises by exactly one if and only if the replaced head carries the number that was read. Reading the
   name again before publishing tells; when nobody published in between, both hold.
   */
  lemma SuccessRaisesByOne(cid: Block -> string, steps: seq<Step>, k: nat)
    requires Addresses(cid) && Run(cid, steps).Some? && k < |Run(cid, steps).value.log|
    requires Run(cid, steps).value.log[k].base.Some?
    ensures var w := Run(cid, steps).value;
            var p := w.log[k];
            var base := p.base.value;
            var replaced := HeadAfter(w.log[..k], p.name);
            && base.readAt <= k && HeadAfter(w.log[..base.readAt], p.name) == Some(base.cid)
            && Continues(w.store, p.cid, base.cid)
            && replaced.Some? && replaced.value in w.store
            && (Continues(w.store, p.cid, replaced.value) <==> replaced == Some(base.cid))
            && (w.store[p.cid].data.sequence == Successor(w.store[replaced.value].data.sequence)
                <==> w.store[replaced.value].data.sequence == w.store[base.cid].data.sequence)
            && (Undisturbed(w.log, p.name, base.readAt, k) ==> replaced == Some(base.cid))
  {
    hide Run, HeadAfter, Rooted, Successor;
    RunKeepsInv(cid, steps);
    var w := Run(cid, steps).value;
    assert PublicationOk(w, k);
    var p := w.log[k];
    var base := p.base.value;
    HeadRemains(w.log, p.name, base.readAt, k);
    HeadIsPublished(w.log[..k], p.name);
    var j :| 0 <= j < k && w.log[..k][j].cid == HeadAfter(w.log[..k], p.name).value;
    PublishedIsStored(cid, w, j);
    NumbersFit(cid, w, w.log[j].cid);
    NumbersFit(cid, w, base.cid);
    SuccessorIsInjective(w.store[w.log[j].cid].data.sequence, w.store[base.cid].data.sequence);
    if Undisturbed(w.log, p.name, base.readAt, k) {
      HeadStays(w.log, p.name, base.readAt, k);
    }
  }

  /** Executions that overlap do not add up: two that read the same head publish the same number. */
  lemma SameBaseSameNumber(cid: Block -> string, steps: seq<Step>, j: nat, k: nat)
    requires Addresses(cid) && Run(cid, steps).Some?
    requires var log := Run(cid, steps).value.log;
             && j < |log| && k < |log| && log[j].base.Some? && log[k].base.Some?
             && log[j].base.value.cid == log[k].base.value.cid
    ensures var w := Run(cid, steps).value;
            && w.log[j].cid in w.store && w.log[k].cid in w.store
            && w.store[w.log[j].cid].data.sequence == w.store[w.log[k].cid].data.sequence
  {
    hide Run, HeadAfter, Rooted;
    RunKeepsInv(cid, steps);
    var w := Run(cid, steps).value;
    assert PublicationOk(w, j) && PublicationOk(w, k);
  }

  // ---------- runs of every length ----------

  lemma OneMoreStep(cid: Block -> string, steps: seq<Step>, w: World, step: Step)
    requires Run(cid, steps) == Some(w) && Enabled(w, step)
    ensures Run(cid, steps + [step]) == Some(Apply(cid, w, step))
  {
    hide Enabled, Apply;
    assert (steps + [step])[..|steps|] == steps;
  }

  /** What the outside world supplies in these runs. */
  function At(now: int): Input {
    Input(["random"], now, "metadata")
  }

  /** The block that an execution adds on top of `head`. */
  function NextBlock(w: World, head: string, now: int): Block
    requires head in w.store
  {
    Block(head, Payload(Successor(w.store[head].data.sequence), now, ["random"]), None)
  }

  ghost predicate HasHead(w: World, name: string) {
    name in w.heads && w.heads[name] in w.store
  }

  /** The three calls of an execution, in any world. */
  lemma Loads(cid: Block -> string, w: World, id: nat, name: string, now: int)
    requires id in w.jobs && w.jobs[id] == Load(name) && HasHead(w, name)
    ensures Enabled(w, Succeed(id, At(now)))
    ensures var head := w.heads[name];
            Apply(cid, w, Succeed(id, At(now)))
            == w.(jobs := w.jobs[id := AddNext(name, head, w.store[head].data.sequence, |w.log|)])
  {
  }

  lemma Adds(cid: Block -> string, w: World, id: nat, name: string, head: string, readAt: nat, now: int)
    requires id in w.jobs && head in w.store
    requires w.jobs[id] == AddNext(name, head, w.store[head].data.sequence, readAt)
    ensures Enabled(w, Succeed(id, At(now)))
    ensures var b := NextBlock(w, head, now);
            Apply(cid, w, Succeed(id, At(now)))
            == w.(store := w.store[cid(b) := b], jobs := w.jobs[id := PublishNext(name, cid(b), head, readAt)])
  {
    hide Successor;
  }

  lemma Publishes(cid: Block -> string, w: World, id: nat, name: string, c: string, head: string, readAt: nat, now: int)
    requires id in w.jobs && w.jobs[id] == PublishNext(name, c, head, readAt)
    ensures Enabled(w, Succeed(id, At(now)))
    ensures Apply(cid, w, Succeed(id, At(now)))
         == Publish(w, Publication(name, c, Some(Base(head, readAt)))).(jobs := w.jobs - {id})
  {
  }

  function ExecutionSteps(name: string): seq<Step> {
    [Execute(0, name)] + [Succeed(0, At(0))] + [Succeed(0, At(0))] + [Succeed(0, At(0))]
  }

  /** The world after an execution that nobody disturbs. */
  function Extended(cid: Block -> string, w: World, name: string): World
    requires HasHead(w, name)
  {
    var b := NextBlock(w, w.heads[name], 0);
    World(w.store[cid(b) := b], w.heads[name := cid(b)], map[],
          w.log + [Publication(name, cid(b), Some(Base(w.heads[name], |w.log|)))])
  }

  lemma ExecutionRuns(cid: Block -> string, steps: seq<Step>, w: World, name: string)
    requires Run(cid, steps) == Some(w) && w.jobs == map[] && HasHead(w, name)
    ensures Run(cid, steps + ExecutionSteps(name)) == Some(Extended(cid, w, name))
  {
    hide Run, NextBlock, At;
    var head, b := w.heads[name], NextBlock(w, w.heads[name], 0);
    OneMoreStep(cid, steps, w, Execute(0, name));
    var t, u := steps + [Execute(0, name)], w.(jobs := map[0 := Load(name)]);
    assert w.jobs[0 := Load(name)] == u.jobs;
    Loads(cid, u, 0, name, 0);
    OneMoreStep(cid, t, u, Succeed(0, At(0)));
    t, u := t + [Succeed(0, At(0))], Apply(cid, u, Succeed(0, At(0)));
    SameBlock(w, u, head, 0);
    Adds(cid, u, 0, name, head, |w.log|, 0);
    OneMoreStep(cid, t, u, Succeed(0, At(0)));
    t, u := t + [Succeed(0, At(0))], Apply(cid, u, Succeed(0, At(0)));
    Publishes(cid, u, 0, name, cid(b), head, |w.log|, 0);
    OneMoreStep(cid, t, u, Succeed(0, At(0)));
    assert u.jobs - {0} == map[];
    assert t + [Succeed(0, At(0))] == steps + ExecutionSteps(name);
  }

  lemma SameBlock(w: World, w': World, head: string, now: int)
    requires head in w.store && head in w'.store && w'.store[head] == w.store[head]
    ensures NextBlock(w', head, now) == NextBlock(w, head, now)
  {
  }

  function CreationSteps(name: string): seq<Step> {
    [Create(0, name, 0)] + [Succeed(0, At(0))] + [Succeed(0, At(0))] + [Succeed(0, At(0))] + [Succeed(0, At(0))]
  }

  /** The world after creating a beacon in an empty one. */
  function Created(cid: Block -> string, name: string): World {
    var temp := Block("", Payload(0, 0, []), None);
    var final := temp.(metadata := Some("metadata"));
    World(map[cid(temp) := temp][cid(final) := final], map[name := cid(final)], map[],
          [Publication(name, cid(temp), None), Publication(name, cid(final), None)])
  }

  /** The four calls of a creation, in any world. */
  lemma CreationCall(cid: Block -> string, w: World, j: Job)
    requires 0 in w.jobs && w.jobs[0] == j && (j.AddTemp? || j.PublishTemp? || j.AddFinal? || j.PublishFinal?)
    ensures Enabled(w, Succeed(0, At(0)))
    ensures var p := Advance(cid, w, j, At(0));
            Apply(cid, w, Succeed(0, At(0)))
            == p.world.(jobs := if p.next.Some? then w.jobs[0 := p.next.value] else w.jobs - {0})
  {
  }

  lemma CreationRuns(cid: Block -> string, name: string)
    ensures Run(cid, CreationSteps(name)) == Some(Created(cid, name))
  {
    hide Run, Apply, Enabled;
    var genesis := Payload(0, 0, []);
    var temp, final := Block("", genesis, None), Block("", genesis, Some("metadata"));
    StartsEmpty(cid, name);
    var t, u := [Create(0, name, 0)], World(map[], map[], map[0 := AddTemp(name, genesis)], []);
    CreationCall(cid, u, AddTemp(name, genesis));
    OneMoreStep(cid, t, u, Succeed(0, At(0)));
    t, u := t + [Succeed(0, At(0))], Apply(cid, u, Succeed(0, At(0)));
    CreationCall(cid, u, PublishTemp(name, genesis, cid(temp)));
    OneMoreStep(cid, t, u, Succeed(0, At(0)));
    t, u := t + [Succeed(0, At(0))], Apply(cid, u, Succeed(0, At(0)));
    CreationCall(cid, u, AddFinal(name, genesis));
    OneMoreStep(cid, t, u, Succeed(0, At(0)));
    t, u := t + [Succeed(0, At(0))], Apply(cid, u, Succeed(0, At(0)));
    CreationCall(cid, u, PublishFinal(name, cid(final)));
    OneMoreStep(cid, t, u, Succeed(0, At(0)));
    var last := Apply(cid, u, Succeed(0, At(0)));
    assert last.store == Created(cid, name).store;
    assert last.heads == map[name := cid(final)];
    assert last.jobs == map[];
    assert last.log == Created(cid, name).log;
    assert t + [Succeed(0, At(0))] == CreationSteps(name);
  }

  lemma StartsEmpty(cid: Block -> string, name: string)
    ensures Run(cid, [Create(0, name, 0)])
         == Some(World(map[], map[], map[0 := AddTemp(name, Payload(0, 0, []))], []))
  {
    assert Run(cid, []) == Some(EMPTY);
    OneMoreStep(cid, [], EMPTY, Create(0, name, 0));
    assert [] + [Create(0, name, 0)] == [Create(0, name, 0)];
  }

  /** A beacon is created and executed `n` times. */
  function LongSteps(name: string, n: nat): (steps: seq<Step>)
    decreases n, name
  {
    if n == 0 then CreationSteps(name) else LongSteps(name, n - 1) + ExecutionSteps(name)
  }

  /** Every length is reached: after `n` executions the head is `n` links away from genesis. */
  lemma {:induction false} EveryLengthIsReached(cid: Block -> string, name: string, n: nat)
    requires Addresses(cid)
    ensures Run(cid, LongSteps(name, n)).Some?
    ensures var w := Run(cid, LongSteps(name, n)).value;
            && w.jobs == map[] && HasHead(w, name) && Chain(w.store, w.heads[name], n)
            && w.log != [] && w.log[|w.log| - 1].name == name && w.log[|w.log| - 1].cid == w.heads[name]
  {
    hide Run, ExecutionSteps, CreationSteps;
    if n == 0 {
      CreationRuns(cid, name);
      var w := Created(cid, name);
      GenesisIsChain(w.store, w.heads[name]);
    } else {
      EveryLengthIsReached(cid, name, n - 1);
      var w := Run(cid, LongSteps(name, n - 1)).value;
      RunKeepsInv(cid, LongSteps(name, n - 1));
      ExecutionRuns(cid, LongSteps(name, n - 1), w, name);
      ExtendedChain(cid, w, name, n - 1);
    }
  }

  lemma ExtendedChain(cid: Block -> string, w: World, name: string, n: nat)
    requires Addresses(cid) && StoreOk(cid, w.store) && HasHead(w, name) && Chain(w.store, w.heads[name], n)
    ensures var w' := Extended(cid, w, name); HasHead(w', name) && Chain(w'.store, w'.heads[name], n + 1)
  {
    hide Successor, Rooted;
    var head, b, w' := w.heads[name], NextBlock(w, w.heads[name], 0), Extended(cid, w, name);
    AddKeepsStore(cid, w.store, b);
    ChainSurvives(w.store, w'.store, head, n);
    LongerChain(w'.store, cid(b), n);
  }

  /** The number does wrap around: after 2^64 executions the head is 2^64 links away from genesis and numbered 0. */
  lemma NumberWrapsAround(cid: Block -> string, name: string)
    requires Addresses(cid)
    ensures Run(cid, LongSteps(name, TWO_64)).Some?
    ensures var w := Run(cid, LongSteps(name, TWO_64)).value;
            && HasHead(w, name) && ReachesGenesis(w.store, w.heads[name], TWO_64)
            && w.store[w.heads[name]].data.sequence == 0
  {
    hide Run, LongSteps, Back, ReachesGenesis;
    EveryLengthIsReached(cid, name, TWO_64);
    var w := Run(cid, LongSteps(name, TWO_64)).value;
    ChainReachesGenesis(w.store, w.heads[name], TWO_64);
  }

  // ---------- executions that overlap ----------

  /** Two executions read the head, add their blocks and publish, one after the other in each stage. */
  function OverlapSteps(name: string): seq<Step> {
    [Execute(0, name)] + [Execute(1, name)] + [Succeed(0, At(0))] + [Succeed(1, At(1))]
    + [Succeed(0, At(0))] + [Succeed(1, At(1))] + [Succeed(0, At(0))] + [Succeed(1, At(1))]
  }

  /** After the blocks `a` and `b` have been published on top of the same head. */
  function Overlapped(cid: Block -> string, w: World, name: string): World
    requires HasHead(w, name)
  {
    var head := w.heads[name];
    var a, b := NextBlock(w, head, 0), NextBlock(w, head, 1);
    World(w.store[cid(a) := a][cid(b) := b], w.heads[name := cid(a)][name := cid(b)], map[],
          w.log + [Publication(name, cid(a), Some(Base(head, |w.log|)))]
          + [Publication(name, cid(b), Some(Base(head, |w.log|)))])
  }

  lemma BothRead(cid: Block -> string, steps: seq<Step>, w: World, name: string) returns (t: seq<Step>, u: World)
    requires Run(cid, steps) == Some(w) && w.jobs == map[] && HasHead(w, name)
    ensures t == steps + [Execute(0, name)] + [Execute(1, name)] + [Succeed(0, At(0))] + [Succeed(1, At(1))]
    ensures Run(cid, t) == Some(u)
    ensures var next := AddNext(name, w.heads[name], w.store[w.heads[name]].data.sequence, |w.log|);
            u == w.(jobs := map[0 := next, 1 := next])
  {
    hide Run, At;
    t, u := steps, w;
    OneMoreStep(cid, t, u, Execute(0, name));
    t, u := t + [Execute(0, name)], u.(jobs := u.jobs[0 := Load(name)]);
    OneMoreStep(cid, t, u, Execute(1, name));
    t, u := t + [Execute(1, name)], u.(jobs := u.jobs[1 := Load(name)]);
    Loads(cid, u, 0, name, 0);
    OneMoreStep(cid, t, u, Succeed(0, At(0)));
    t, u := t + [Succeed(0, At(0))], Apply(cid, u, Succeed(0, At(0)));
    Loads(cid, u, 1, name, 1);
    OneMoreStep(cid, t, u, Succeed(1, At(1)));
    t, u := t + [Succeed(1, At(1))], Apply(cid, u, Succeed(1, At(1)));
  }

  lemma OverlapRuns(cid: Block -> string, steps: seq<Step>, w: World, name: string)
    requires Addresses(cid) && Inv(cid, w) && Run(cid, steps) == Some(w) && w.jobs == map[] && HasHead(w, name)
    ensures Run(cid, steps + OverlapSteps(name)) == Some(Overlapped(cid, w, name))
  {
    hide Run, At, NextBlock, Inv;
    var head, n := w.heads[name], |w.log|;
    var a, b := NextBlock(w, head, 0), NextBlock(w, head, 1);
    var t, u := BothRead(cid, steps, w, name);
    SameBlock(w, u, head, 0);
    Adds(cid, u, 0, name, head, n, 0);
    OneMoreStep(cid, t, u, Succeed(0, At(0)));
    t, u := t + [Succeed(0, At(0))], Apply(cid, u, Succeed(0, At(0)));
    HeadIsKept(cid, w, head, a);
    SameBlock(w, u, head, 1);
    Adds(cid, u, 1, name, head, n, 1);
    OneMoreStep(cid, t, u, Succeed(1, At(1)));
    t, u := t + [Succeed(1, At(1))], Apply(cid, u, Succeed(1, At(1)));
    Publishes(cid, u, 0, name, cid(a), head, n, 0);
    OneMoreStep(cid, t, u, Succeed(0, At(0)));
    t, u := t + [Succeed(0, At(0))], Apply(cid, u, Succeed(0, At(0)));
    Publishes(cid, u, 1, name, cid(b), head, n, 1);
    OneMoreStep(cid, t, u, Succeed(1, At(1)));
    assert u.jobs - {1} == map[];
    assert t + [Succeed(1, At(1))] == steps + OverlapSteps(name);
  }

  /** Adding a block leaves the head as it was. */
  lemma HeadIsKept(cid: Block -> string, w: World, head: string, b: Block)
    requires Addresses(cid) && Inv(cid, w) && head in w.store
    ensures w.store[cid(b) := b][head] == w.store[head]
  {
    hide HeadAfter, Rooted;
  }

  /**
   Executions that overlap do not add up: from a beacon of any length, both succeed, the second replaces the head
   that the first has published, and the number stays where the first has put it.
   */
  lemma OverlapDoesNotAddUp(cid: Block -> string, name: string, n: nat)
    requires Addresses(cid)
    ensures var before, after := Run(cid, LongSteps(name, n)), Run(cid, LongSteps(name, n) + OverlapSteps(name));
            && before.Some? && after.Some? && HasHead(before.value, name)
            && var log, store, k := after.value.log, after.value.store, |after.value.log| - 1;
            && k >= 1 && log[k - 1].name == log[k].name == name && log[k - 1].cid != log[k].cid
            && log[k - 1].base == log[k].base == Some(Base(before.value.heads[name], |before.value.log|))
            && HeadAfter(log[..k], name) == Some(log[k - 1].cid)
            && log[k - 1].cid in store && log[k].cid in store
            && store[log[k].cid].data.sequence == store[log[k - 1].cid].data.sequence
  {
    hide Run, LongSteps, OverlapSteps, Inv, Chain;
    EveryLengthIsReached(cid, name, n);
    RunKeepsInv(cid, LongSteps(name, n));
    var w := Run(cid, LongSteps(name, n)).value;
    OverlapRuns(cid, LongSteps(name, n), w, name);
    var u := Overlapped(cid, w, name);
    var head := w.heads[name];
    var a, b := NextBlock(w, head, 0), NextBlock(w, head, 1);
    assert a != b;
    assert cid(a) != cid(b);
    assert u.log[..|u.log| - 1] == w.log + [Publication(name, cid(a), Some(Base(head, |w.log|)))];
  }
}
