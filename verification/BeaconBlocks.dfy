/** Blocks and publications of the beacon, seen from the steps of a run: which values they carry, under which name. */
module BeaconBlocks {
  import opened Outcomes
  import opened BeaconChain

  /** Some call of the run got this input from outside. */
  predicate Supplied(steps: seq<Step>, id: nat, i: Input) {
    Succeed(id, i) in steps || LoseAnswer(id, i) in steps
  }

  /** A genesis block dates from a creation; any other block carries the random values and the time of its own call. */
  ghost predicate BlockExplained(steps: seq<Step>, b: Block) {
    if b.link == "" then
      exists id, name, now :: Create(id, name, now) in steps && b.data == Payload(0, now, [])
    else
      b.metadata.None? && exists id, i ::
        Supplied(steps, id, i) && i.ctrng != [] && b.data.ctrng == i.ctrng && b.data.timestamp == i.now
  }

  ghost predicate Executed(steps: seq<Step>, name: string) {
    exists id :: Execute(id, name) in steps
  }

  ghost predicate CreatedWith(steps: seq<Step>, name: string, genesis: Payload) {
    genesis.sequence == 0 && genesis.ctrng == [] && exists id :: Create(id, name, genesis.timestamp) in steps
  }

  ghost predicate Created(steps: seq<Step>, name: string) {
    exists id, now :: Create(id, name, now) in steps
  }

  ghost predicate JobExplained(steps: seq<Step>, j: Job) {
    match j
    case Load(name) => Executed(steps, name)
    case AddNext(name, _, _, _) => Executed(steps, name)
    case PublishNext(name, _, _, _) => Executed(steps, name)
    case AddTemp(name, genesis) => CreatedWith(steps, name, genesis)
    case PublishTemp(name, genesis, _) => CreatedWith(steps, name, genesis)
    case AddFinal(name, genesis) => CreatedWith(steps, name, genesis)
    case PublishFinal(name, _) => Created(steps, name)
  }

  /** An execution publishes under the name it was started for, and so does a creation. */
  ghost predicate PublicationExplained(steps: seq<Step>, p: Publication) {
    if p.base.Some? then Executed(steps, p.name) else Created(steps, p.name)
  }

  ghost predicate Explained(steps: seq<Step>, w: World) {
    && (forall c :: c in w.store ==> BlockExplained(steps, w.store[c]))
    && (forall id :: id in w.jobs ==> JobExplained(steps, w.jobs[id]))
    && (forall k :: 0 <= k < |w.log| ==> PublicationExplained(steps, w.log[k]))
  }

  // ---------- more steps explain no less ----------

  lemma MoreSteps(steps: seq<Step>, x: Step, y: Step)
    requires y in steps
    ensures y in steps + [x]
  {
  }

  lemma BlockGrows(steps: seq<Step>, x: Step, b: Block)
    requires BlockExplained(steps, b)
    ensures BlockExplained(steps + [x], b)
  {
    if b.link == "" {
      var id, name, now :| Create(id, name, now) in steps && b.data == Payload(0, now, []);
      MoreSteps(steps, x, Create(id, name, now));
    } else {
      var id, i :| Supplied(steps, id, i) && i.ctrng != [] && b.data.ctrng == i.ctrng && b.data.timestamp == i.now;
      assert Supplied(steps + [x], id, i);
    }
  }

  lemma ExecutedGrows(steps: seq<Step>, x: Step, name: string)
    requires Executed(steps, name)
    ensures Executed(steps + [x], name)
  {
    var id :| Execute(id, name) in steps;
    MoreSteps(steps, x, Execute(id, name));
  }

  lemma CreatedGrows(steps: seq<Step>, x: Step, name: string)
    requires Created(steps, name)
    ensures Created(steps + [x], name)
  {
    var id, now :| Create(id, name, now) in steps;
    MoreSteps(steps, x, Create(id, name, now));
  }

  lemma CreatedWithGrows(steps: seq<Step>, x: Step, name: string, genesis: Payload)
    requires CreatedWith(steps, name, genesis)
    ensures CreatedWith(steps + [x], name, genesis) && Created(steps, name)
  {
    var id :| Create(id, name, genesis.timestamp) in steps;
    MoreSteps(steps, x, Create(id, name, genesis.timestamp));
  }

  lemma JobGrows(steps: seq<Step>, x: Step, j: Job)
    requires JobExplained(steps, j)
    ensures JobExplained(steps + [x], j)
  {
    hide Executed, Created, CreatedWith;
    match j
    case Load(name) => ExecutedGrows(steps, x, name);
    case AddNext(name, _, _, _) => ExecutedGrows(steps, x, name);
    case PublishNext(name, _, _, _) => ExecutedGrows(steps, x, name);
    case AddTemp(name, genesis) => CreatedWithGrows(steps, x, name, genesis);
    case PublishTemp(name, genesis, _) => CreatedWithGrows(steps, x, name, genesis);
    case AddFinal(name, genesis) => CreatedWithGrows(steps, x, name, genesis);
    case PublishFinal(name, _) => CreatedGrows(steps, x, name);
  }

  lemma ExplainedGrows(steps: seq<Step>, x: Step, w: World)
    requires Explained(steps, w)
    ensures Explained(steps + [x], w)
  {
    hide BlockExplained, JobExplained, Executed, Created;
    forall c | c in w.store ensures BlockExplained(steps + [x], w.store[c]) {
      BlockGrows(steps, x, w.store[c]);
    }
    forall id | id in w.jobs ensures JobExplained(steps + [x], w.jobs[id]) {
      JobGrows(steps, x, w.jobs[id]);
    }
    forall k | 0 <= k < |w.log| ensures PublicationExplained(steps + [x], w.log[k]) {
      assert PublicationExplained(steps, w.log[k]);
      if w.log[k].base.Some? {
        ExecutedGrows(steps, x, w.log[k].name);
      } else {
        CreatedGrows(steps, x, w.log[k].name);
      }
    }
  }

  // ---------- every call ----------

  lemma GenesisIsExplained(steps: seq<Step>, name: string, genesis: Payload, metadata: Option<string>)
    requires CreatedWith(steps, name, genesis)
    ensures BlockExplained(steps, Block("", genesis, metadata))
  {
    var id :| Create(id, name, genesis.timestamp) in steps;
    assert genesis == Payload(0, genesis.timestamp, []);
  }

  lemma NextIsExplained(steps: seq<Step>, id: nat, i: Input, link: string, sequence: nat)
    requires Supplied(steps, id, i) && i.ctrng != [] && link != ""
    ensures BlockExplained(steps, Block(link, Payload(sequence, i.now, i.ctrng), None))
  {
  }

  /** The call of job `id` with input `i`, which the last of `steps` supplied. */
  lemma AdvanceIsExplained(cid: Block -> string, steps: seq<Step>, w: World, id: nat, i: Input)
    requires Explained(steps, w) && id in w.jobs && CanAdvance(w, w.jobs[id], i) && Supplied(steps, id, i)
    requires w.jobs[id].AddNext? ==> w.jobs[id].lastCid != ""
    ensures var p := Advance(cid, w, w.jobs[id], i);
            && Explained(steps, p.world) && (p.next.Some? ==> JobExplained(steps, p.next.value))
  {
    hide BlockExplained, Executed, Created, CreatedWith, Supplied, Successor;
    var j := w.jobs[id];
    assert JobExplained(steps, j);
    match j
    case AddNext(_, lastCid, lastSequence, _) => NextIsExplained(steps, id, i, lastCid, Successor(lastSequence));
    case AddTemp(name, genesis) => GenesisIsExplained(steps, name, genesis, None);
    case PublishTemp(name, genesis, _) => CreatedWithGrows(steps, Abandon(0), name, genesis);
    case AddFinal(name, genesis) =>
      GenesisIsExplained(steps, name, genesis, Some(i.metadata));
      CreatedWithGrows(steps, Abandon(0), name, genesis);
    case _ =>
  }

  lemma StepIsExplained(cid: Block -> string, steps: seq<Step>, w: World, x: Step)
    requires Explained(steps, w) && Enabled(w, x)
    requires forall id :: id in w.jobs && w.jobs[id].AddNext? ==> w.jobs[id].lastCid != ""
    ensures Explained(steps + [x], Apply(cid, w, x))
  {
    hide BlockExplained, JobExplained, PublicationExplained, Advance;
    var more := steps + [x];
    ExplainedGrows(steps, x, w);
    assert x in more;
    match x
    case Execute(id, name) => ArrivalsAreExplained(more, id, name, 0);
    case Create(id, name, now) => ArrivalsAreExplained(more, id, name, now);
    case Abandon(_) =>
    case Succeed(id, i) => AdvanceIsExplained(cid, more, w, id, i);
    case LoseAnswer(id, i) => AdvanceIsExplained(cid, more, w, id, i);
  }

  lemma ArrivalsAreExplained(steps: seq<Step>, id: nat, name: string, now: int)
    ensures Execute(id, name) in steps ==> JobExplained(steps, Load(name))
    ensures Create(id, name, now) in steps ==> JobExplained(steps, AddTemp(name, Payload(0, now, [])))
  {
  }

  /** No job links to the empty address. */
  lemma LinksAreNotEmpty(cid: Block -> string, w: World)
    requires Inv(cid, w)
    ensures forall id :: id in w.jobs && w.jobs[id].AddNext? ==> w.jobs[id].lastCid != ""
  {
    hide HeadAfter, Rooted;
    forall id | id in w.jobs && w.jobs[id].AddNext? ensures w.jobs[id].lastCid != "" {
      assert JobOk(w, w.jobs[id]);
    }
  }

  lemma {:induction false} RunIsExplained(cid: Block -> string, steps: seq<Step>)
    requires Addresses(cid) && Run(cid, steps).Some?
    ensures Explained(steps, Run(cid, steps).value)
  {
    hide BlockExplained, JobExplained, PublicationExplained, Apply, Enabled, Inv;
    if steps != [] {
      var n := |steps| - 1;
      RunIsExplained(cid, steps[..n]);
      RunKeepsInv(cid, steps[..n]);
      LinksAreNotEmpty(cid, Run(cid, steps[..n]).value);
      StepIsExplained(cid, steps[..n], Run(cid, steps[..n]).value, steps[n]);
      assert steps == steps[..n] + [steps[n]];
    }
  }

  /**
   In every run, each stored block is a genesis block of some creation or carries exactly the random values and the
   time that its own execution was given, and each head was published under the name of an execution or creation.
   */
  lemma BlocksCarryTheirInputs(cid: Block -> string, steps: seq<Step>)
    requires Addresses(cid) && Run(cid, steps).Some?
    ensures var w := Run(cid, steps).value;
            && (forall c :: c in w.store ==> BlockExplained(steps, w.store[c]))
            && (forall k :: 0 <= k < |w.log| ==> PublicationExplained(steps, w.log[k]))
  {
    hide Run, BlockExplained, PublicationExplained;
    RunIsExplained(cid, steps);
  }
}
