/**
 The beacon's hash chain on a content-addressed store with mutable names.

 Every store call (read a name, add a block, publish a name) is one step. Executions and creations of
 beacons interleave freely, fail at any point, and may lose the answer to a call that took effect.
 */
module BeaconChain {
  import opened Outcomes
  import opened Words

  /** Counting up in 64 bits. */
  function Successor(n: nat): nat {
    (n + 1) % TWO_64
  }

  datatype Payload = Payload(sequence: nat, timestamp: int, ctrng: seq<string>)

  datatype Block = Block(link: string, data: Payload, metadata: Option<string>)

  type Store = map<string, Block>

  /**
   Content addressing: different blocks have different addresses, and none is empty.  The store answers an
   add with the bare address and a read with the path `/ipfs/` + address, which is what blocks link to;
   here both are the address.
   */
  ghost predicate Addresses(cid: Block -> string) {
    && (forall a, b :: cid(a) == cid(b) ==> a == b)
    && (forall b :: cid(b) != "")
  }

  // ---------- jobs ----------

  /** An execution or a creation of the beacon `name` between two store calls. */
  datatype Job =
    | Load(name: string)
    | AddNext(name: string, lastCid: string, lastSequence: nat, readAt: nat)
    | PublishNext(name: string, cid: string, lastCid: string, readAt: nat)
    | AddTemp(name: string, genesis: Payload)
    | PublishTemp(name: string, genesis: Payload, cid: string)
    | AddFinal(name: string, genesis: Payload)
    | PublishFinal(name: string, cid: string)

  /** A head that was published; an execution also names the head it had read, after how many publications. */
  datatype Publication = Publication(name: string, cid: string, base: Option<Base>)
  datatype Base = Base(cid: string, readAt: nat)

  datatype World = World(store: Store, heads: map<string, string>, jobs: map<nat, Job>, log: seq<Publication>)

  const EMPTY: World := World(map[], map[], map[], [])

  /** What the outside world supplies to a call: the random values, the clock, the metadata. */
  datatype Input = Input(ctrng: seq<string>, now: int, metadata: string)

  /** Whether the next call of the job can succeed. */
  predicate CanAdvance(w: World, j: Job, i: Input) {
    match j
    case Load(name) => name in w.heads && w.heads[name] in w.store
    case AddNext(_, _, _, _) => i.ctrng != []
    case _ => true
  }

  function Add(cid: Block -> string, w: World, b: Block): World {
    w.(store := w.store[cid(b) := b])
  }

  function Publish(w: World, p: Publication): World {
    w.(heads := w.heads[p.name := p.cid], log := w.log + [p])
  }

  datatype Progress = Progress(world: World, next: Option<Job>)

  /** The next call of the job, successful. */
  function Advance(cid: Block -> string, w: World, j: Job, i: Input): Progress
    requires CanAdvance(w, j, i)
  {
    match j
    case Load(name) =>
      var head := w.heads[name];
      Progress(w, Some(AddNext(name, head, w.store[head].data.sequence, |w.log|)))
    case AddNext(name, lastCid, lastSequence, readAt) =>
      var b := Block(lastCid, Payload(Successor(lastSequence), i.now, i.ctrng), None);
      Progress(Add(cid, w, b), Some(PublishNext(name, cid(b), lastCid, readAt)))
    case PublishNext(name, c, lastCid, readAt) =>
      Progress(Publish(w, Publication(name, c, Some(Base(lastCid, readAt)))), None)
    case AddTemp(name, genesis) =>
      var b := Block("", genesis, None);
      Progress(Add(cid, w, b), Some(PublishTemp(name, genesis, cid(b))))
    case PublishTemp(name, genesis, c) =>
      Progress(Publish(w, Publication(name, c, None)), Some(AddFinal(name, genesis)))
    case AddFinal(name, genesis) =>
      var b := Block("", genesis, Some(i.metadata));
      Progress(Add(cid, w, b), Some(PublishFinal(name, cid(b))))
    case PublishFinal(name, c) =>
      Progress(Publish(w, Publication(name, c, None)), None)
  }

  datatype Step =
    | Execute(id: nat, name: string)
    | Create(id: nat, name: string, now: int)
    | Succeed(id: nat, input: Input)
    | Abandon(id: nat)
    | LoseAnswer(id: nat, input: Input)

  predicate Enabled(w: World, step: Step) {
    match step
    case Execute(id, _) => id !in w.jobs
    case Create(id, _, _) => id !in w.jobs
    case Succeed(id, input) => id in w.jobs && CanAdvance(w, w.jobs[id], input)
    case Abandon(id) => id in w.jobs
    case LoseAnswer(id, input) => id in w.jobs && CanAdvance(w, w.jobs[id], input)
  }

  function Apply(cid: Block -> string, w: World, step: Step): World
    requires Enabled(w, step)
  {
    match step
    case Execute(id, name) => w.(jobs := w.jobs[id := Load(name)])
    case Create(id, name, now) => w.(jobs := w.jobs[id := AddTemp(name, Payload(0, now, []))])
    case Succeed(id, input) =>
      var p := Advance(cid, w, w.jobs[id], input);
      p.world.(jobs := if p.next.Some? then w.jobs[id := p.next.value] else w.jobs - {id})
    case Abandon(id) => w.(jobs := w.jobs - {id})
    case LoseAnswer(id, input) => Advance(cid, w, w.jobs[id], input).world.(jobs := w.jobs - {id})
  }

  ghost function Run(cid: Block -> string, steps: seq<Step>): Option<World> {
    if steps == [] then Some(EMPTY)
    else
      match Run(cid, steps[..|steps| - 1])
      case None => None
      case Some(w) => if Enabled(w, steps[|steps| - 1]) then Some(Apply(cid, w, steps[|steps| - 1])) else None
  }

  // ---------- chains ----------

  /** The block `k` links before the one at `c`. */
  function Back(store: Store, c: string, k: nat): (r: Option<string>)
    decreases k
  {
    if c !in store then None
    else if k == 0 then Some(c)
    else Back(store, store[c].link, k - 1)
  }

  /** Following the links from `c` reaches a block without one in exactly `n` links. */
  ghost predicate ReachesGenesis(store: Store, c: string, n: nat) {
    && (forall k: nat :: k <= n ==> Back(store, c, k).Some? && Back(store, c, k).value in store)
    && (forall k: nat :: k <= n ==> (store[Back(store, c, k).value].link == "" <==> k == n))
  }

  /** A chain of `n` links down to a genesis block, the numbers falling by one on the way. */
  ghost predicate Chain(store: Store, c: string, n: nat)
    decreases n
  {
    && c in store && store[c].data.sequence == n % TWO_64
    && (store[c].link == "" <==> n == 0)
    && (n > 0 ==> Chain(store, store[c].link, n - 1))
  }

  lemma {:induction false} ChainGoesBack(store: Store, c: string, n: nat, k: nat)
    requires Chain(store, c, n) && k <= n
    ensures Back(store, c, k).Some? && Chain(store, Back(store, c, k).value, n - k)
    decreases k
  {
    if k > 0 {
      ChainGoesBack(store, store[c].link, n - 1, k - 1);
    }
  }

  lemma {:induction false} ChainSurvives(store: Store, store': Store, c: string, n: nat)
    requires Chain(store, c, n) && forall d :: d in store ==> d in store' && store'[d] == store[d]
    ensures Chain(store', c, n)
    decreases n
  {
    if n > 0 {
      ChainSurvives(store, store', store[c].link, n - 1);
    }
  }

  // ---------- the invariant ----------

  ghost predicate Rooted(store: Store, c: string) {
    exists n: nat :: Chain(store, c, n)
  }

  ghost predicate StoreOk(cid: Block -> string, store: Store) {
    && "" !in store
    && (forall c :: c in store ==> cid(store[c]) == c)
    && (forall c :: c in store ==> Rooted(store, c))
  }

  /** The block at `c` continues the one at `base`. */
  ghost predicate Continues(store: Store, c: string, base: string) {
    && c in store && base in store && store[c].link == base
    && store[c].data.sequence == Successor(store[base].data.sequence)
  }

  ghost predicate JobOk(w: World, j: Job) {
    match j
    case Load(_) => true
    case AddNext(name, lastCid, lastSequence, readAt) =>
      && lastCid in w.store && w.store[lastCid].data.sequence == lastSequence
      && readAt <= |w.log| && HeadAfter(w.log[..readAt], name) == Some(lastCid)
    case PublishNext(name, c, lastCid, readAt) =>
      && Continues(w.store, c, lastCid)
      && readAt <= |w.log| && HeadAfter(w.log[..readAt], name) == Some(lastCid)
    case AddTemp(_, genesis) => genesis.sequence == 0
    case PublishTemp(_, genesis, c) => genesis.sequence == 0 && c in w.store && w.store[c].link == ""
    case AddFinal(_, genesis) => genesis.sequence == 0
    case PublishFinal(_, c) => c in w.store && w.store[c].link == ""
  }

  /** The head of a name after the publications of `log`. */
  function HeadAfter(log: seq<Publication>, name: string): (c: Option<string>) {
    if log == [] then None
    else if log[|log| - 1].name == name then Some(log[|log| - 1].cid)
    else HeadAfter(log[..|log| - 1], name)
  }

  ghost predicate PublicationOk(w: World, k: nat)
    requires k < |w.log|
  {
    var p := w.log[k];
    match p.base
    case None => p.cid in w.store && w.store[p.cid].link == ""
    case Some(b) =>
      && Continues(w.store, p.cid, b.cid)
      && b.readAt <= k && HeadAfter(w.log[..b.readAt], p.name) == Some(b.cid)
  }

  ghost predicate HeadsOk(w: World) {
    && (forall name :: name in w.heads ==> HeadAfter(w.log, name) == Some(w.heads[name]))
    && (forall name :: HeadAfter(w.log, name).Some? ==> name in w.heads)
  }

  ghost predicate LogOk(w: World) {
    forall k :: 0 <= k < |w.log| ==> PublicationOk(w, k)
  }

  ghost predicate JobsOk(w: World) {
    forall id :: id in w.jobs ==> JobOk(w, w.jobs[id])
  }

  ghost predicate Inv(cid: Block -> string, w: World) {
    StoreOk(cid, w.store) && HeadsOk(w) && LogOk(w) && JobsOk(w)
  }

  // ---------- every step keeps it ----------

  ghost predicate Grows(w: World, w': World) {
    && (forall c :: c in w.store ==> c in w'.store && w'.store[c] == w.store[c])
    && w.log <= w'.log
  }

  /** A genesis block, or one that continues a stored block, extends the store of chains. */
  lemma AddKeepsStore(cid: Block -> string, store: Store, b: Block)
    requires Addresses(cid) && StoreOk(cid, store)
    requires || (b.link == "" && b.data.sequence == 0)
             || (b.link in store && b.data.sequence == Successor(store[b.link].data.sequence))
    ensures StoreOk(cid, store[cid(b) := b])
    ensures forall c :: c in store ==> store[cid(b) := b][c] == store[c]
  {
    hide Chain;
    var store' := store[cid(b) := b];
    assert forall c :: c in store ==> store'[c] == store[c];
    forall c | c in store ensures Rooted(store', c) {
      assert Rooted(store, c);
      var n: nat :| Chain(store, c, n);
      ChainSurvives(store, store', c, n);
    }
    if b.link == "" {
      GenesisIsChain(store', cid(b));
    } else {
      assert Rooted(store', b.link);
      var n: nat :| Chain(store', b.link, n);
      LongerChain(store', cid(b), n);
    }
    assert Rooted(store', cid(b));
  }

  lemma GenesisIsChain(store: Store, c: string)
    requires c in store && store[c].link == "" && store[c].data.sequence == 0
    ensures Chain(store, c, 0)
  {
  }

  lemma LongerChain(store: Store, c: string, n: nat)
    requires c in store && store[c].link != "" && Chain(store, store[c].link, n)
    requires store[c].data.sequence == Successor(store[store[c].link].data.sequence)
    ensures Chain(store, c, n + 1)
  {
    NextNumber(n);
  }

  lemma NextNumber(n: nat)
    ensures Successor(n % TWO_64) == (n + 1) % TWO_64
  {
  }

  lemma LogPrefix(log: seq<Publication>, log': seq<Publication>, n: nat)
    requires log <= log' && n <= |log|
    ensures log'[..n] == log[..n]
  {
  }

  lemma JobSurvives(w: World, w': World, j: Job)
    requires Grows(w, w') && JobOk(w, j)
    ensures JobOk(w', j)
  {
    hide HeadAfter;
    match j
    case AddNext(_, _, _, readAt) => LogPrefix(w.log, w'.log, readAt);
    case PublishNext(_, _, _, readAt) => LogPrefix(w.log, w'.log, readAt);
    case _ =>
  }

  lemma PublicationSurvives(w: World, w': World, k: nat)
    requires Grows(w, w') && k < |w.log| && PublicationOk(w, k)
    ensures PublicationOk(w', k)
  {
    hide HeadAfter;
    if w.log[k].base.Some? {
      LogPrefix(w.log, w'.log, w.log[k].base.value.readAt);
    }
  }

  /** The new block, if the call adds one, may be added. */
  lemma AdvanceKeepsStore(cid: Block -> string, w: World, j: Job, i: Input)
    requires Addresses(cid) && Inv(cid, w) && JobOk(w, j) && CanAdvance(w, j, i)
    ensures StoreOk(cid, Advance(cid, w, j, i).world.store) && Grows(w, Advance(cid, w, j, i).world)
  {
    hide StoreOk, HeadAfter, Successor, HeadsOk, LogOk, JobsOk;
    match j
    case AddNext(_, lastCid, lastSequence, _) =>
      AddKeepsStore(cid, w.store, Block(lastCid, Payload(Successor(lastSequence), i.now, i.ctrng), None));
    case AddTemp(_, genesis) => AddKeepsStore(cid, w.store, Block("", genesis, None));
    case AddFinal(_, genesis) => AddKeepsStore(cid, w.store, Block("", genesis, Some(i.metadata)));
    case _ =>
  }

  lemma HeadAfterMore(log: seq<Publication>, p: Publication, name: string)
    ensures HeadAfter(log + [p], name) == if p.name == name then Some(p.cid) else HeadAfter(log, name)
  {
    assert (log + [p])[..|log|] == log;
  }

  lemma AdvanceKeepsHeads(cid: Block -> string, w: World, j: Job, i: Input)
    requires HeadsOk(w) && CanAdvance(w, j, i)
    ensures HeadsOk(Advance(cid, w, j, i).world)
  {
    hide HeadAfter;
    var w' := Advance(cid, w, j, i).world;
    if w'.log != w.log {
      var p := w'.log[|w.log|];
      assert w' == Publish(w, p);
      forall name ensures HeadAfter(w'.log, name) == if p.name == name then Some(p.cid) else HeadAfter(w.log, name) {
        HeadAfterMore(w.log, p, name);
      }
    }
  }

  lemma AdvanceKeepsLog(cid: Block -> string, w: World, j: Job, i: Input)
    requires LogOk(w) && JobOk(w, j) && CanAdvance(w, j, i) && Grows(w, Advance(cid, w, j, i).world)
    ensures LogOk(Advance(cid, w, j, i).world)
  {
    hide HeadAfter;
    var w' := Advance(cid, w, j, i).world;
    forall k | 0 <= k < |w'.log| ensures PublicationOk(w', k) {
      if k < |w.log| {
        assert PublicationOk(w, k);
        PublicationSurvives(w, w', k);
      } else {
        JobSurvives(w, w', j);
        if j.PublishNext? {
          LogPrefix(w.log, w'.log, j.readAt);
        }
      }
    }
  }

  lemma NextJobOk(cid: Block -> string, w: World, j: Job, i: Input)
    requires Inv(cid, w) && JobOk(w, j) && CanAdvance(w, j, i) && Grows(w, Advance(cid, w, j, i).world)
    ensures var p := Advance(cid, w, j, i); p.next.Some? ==> JobOk(p.world, p.next.value)
  {
    hide HeadAfter, Rooted;
    var w' := Advance(cid, w, j, i).world;
    JobSurvives(w, w', j);
    assert w.log[..|w.log|] == w.log;
  }

  lemma AdvanceKeepsInv(cid: Block -> string, w: World, id: nat, i: Input, next: map<nat, Job>)
    requires Addresses(cid) && Inv(cid, w) && id in w.jobs && CanAdvance(w, w.jobs[id], i)
    requires forall k :: k in next && k != id ==> k in w.jobs && next[k] == w.jobs[k]
    requires id in next ==> Advance(cid, w, w.jobs[id], i).next == Some(next[id])
    ensures Inv(cid, Advance(cid, w, w.jobs[id], i).world.(jobs := next))
  {
    hide HeadAfter, Rooted, Advance, StoreOk, PublicationOk, JobOk;
    var j := w.jobs[id];
    assert JobOk(w, j);
    AdvanceKeepsStore(cid, w, j, i);
    AdvanceKeepsHeads(cid, w, j, i);
    AdvanceKeepsLog(cid, w, j, i);
    NextJobOk(cid, w, j, i);
    var w' := Advance(cid, w, j, i).world;
    var w'' := w'.(jobs := next);
    forall k | 0 <= k < |w''.log| ensures PublicationOk(w'', k) {
      assert PublicationOk(w', k);
      PublicationSurvives(w', w'', k);
    }
    forall k | k in next ensures JobOk(w'', next[k]) {
      if k != id {
        JobSurvives(w, w'', next[k]);
      } else {
        JobSurvives(w', w'', next[k]);
      }
    }
  }

  lemma JobsChangeKeepsInv(cid: Block -> string, w: World, next: map<nat, Job>)
    requires Inv(cid, w)
    requires forall k :: k in next ==> JobOk(w, next[k])
    ensures Inv(cid, w.(jobs := next))
  {
    hide HeadAfter, Rooted, StoreOk, PublicationOk, JobOk;
    var w' := w.(jobs := next);
    forall k | 0 <= k < |w.log| ensures PublicationOk(w', k) {
      PublicationSurvives(w, w', k);
    }
    forall k | k in next ensures JobOk(w', next[k]) {
      JobSurvives(w, w', next[k]);
    }
  }

  lemma StepKeepsInv(cid: Block -> string, w: World, step: Step)
    requires Addresses(cid) && Inv(cid, w) && Enabled(w, step)
    ensures Inv(cid, Apply(cid, w, step))
  {
    hide Advance, StoreOk, HeadsOk, LogOk;
    match step
    case Succeed(id, input) => AdvanceKeepsInv(cid, w, id, input, Apply(cid, w, step).jobs);
    case LoseAnswer(id, input) => AdvanceKeepsInv(cid, w, id, input, w.jobs - {id});
    case _ => JobsChangeKeepsInv(cid, w, Apply(cid, w, step).jobs);
  }

  lemma {:induction false} RunKeepsInv(cid: Block -> string, steps: seq<Step>)
    requires Addresses(cid) && Run(cid, steps).Some?
    ensures Inv(cid, Run(cid, steps).value)
  {
    hide Apply;
    if steps != [] {
      RunKeepsInv(cid, steps[..|steps| - 1]);
      StepKeepsInv(cid, Run(cid, steps[..|steps| - 1]).value, steps[|steps| - 1]);
    }
  }

  // ---------- what every run guarantees ----------

  lemma ChainReachesGenesis(store: Store, c: string, n: nat)
    requires Chain(store, c, n)
    ensures ReachesGenesis(store, c, n)
    ensures forall k: nat :: k <= n ==> store[Back(store, c, k).value].data.sequence == (n - k) % TWO_64
  {
    hide Back;
    forall k: nat | k <= n
      ensures Back(store, c, k).Some? && Back(store, c, k).value in store
      ensures store[Back(store, c, k).value].link == "" <==> k == n
      ensures store[Back(store, c, k).value].data.sequence == (n - k) % TWO_64
    {
      ChainGoesBack(store, c, n, k);
    }
  }

  /** A block reaches genesis in only one number of links. */
  lemma OnlyOneLength(store: Store, c: string, n: nat, m: nat)
    requires ReachesGenesis(store, c, n) && ReachesGenesis(store, c, m)
    ensures n == m
  {
    hide Back;
    assert Back(store, c, n).Some? && Back(store, c, m).Some?;
  }

  /** The chain below `c` has `n` links and is numbered by its length, as far as 64 bits go. */
  ghost predicate Numbered(store: Store, c: string, n: nat) {
    && ReachesGenesis(store, c, n)
    && (forall i: nat :: i <= n ==> store[Back(store, c, i).value].data.sequence == (n - i) % TWO_64)
    && c in store && (store[c].data.sequence == n <==> n < TWO_64)
  }

  /**
   In every run, each head ever published still reaches a genesis block, with the numbers falling by one
   (modulo 2^64) from link to link; its number is the number of links exactly while that is below 2^64.
   */
  lemma HeadsReachGenesis(cid: Block -> string, steps: seq<Step>, k: nat)
    requires Addresses(cid) && Run(cid, steps).Some? && k < |Run(cid, steps).value.log|
    ensures var w := Run(cid, steps).value; exists n: nat :: Numbered(w.store, w.log[k].cid, n)
  {
    hide Run, HeadAfter, Back, ReachesGenesis;
    RunKeepsInv(cid, steps);
    var w := Run(cid, steps).value;
    assert PublicationOk(w, k);
    var head := w.log[k].cid;
    assert Rooted(w.store, head);
    var n: nat :| Chain(w.store, head, n);
    ChainReachesGenesis(w.store, head, n);
    assert Numbered(w.store, head, n);
  }
}
