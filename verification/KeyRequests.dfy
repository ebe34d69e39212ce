/**
 Answers of the KMS plugin belong to the requests that arrived: whose key, which message, which version.

 Everything here is about the steps of a run, so that nothing rests on what a request carries along.
 */
module KeyRequests {
  import opened Outcomes
  import opened KeyVersions
  import opened Rotations
  import Signatures

  // ---------- what the steps say ----------

  /** `client` has asked for the key at `path` to be created. */
  ghost predicate AskedToCreate(steps: seq<Step>, client: string, path: Path, signing: bool) {
    exists id :: Arrive(id, CreateLookup(client, path, signing)) in steps
  }

  /** The record under `path` is that of the client who created it. */
  ghost predicate RecordFor(steps: seq<Step>, path: Path, r: Record) {
    AskedToCreate(steps, r.clientId, path, r.signing)
  }

  /** The version was the stored one at some moment of the run. */
  ghost predicate WasStored(s: Scheme, steps: seq<Step>, path: Path, version: nat) {
    exists k: nat :: k <= |steps| && StoredAt(s, steps[..k], path, version)
  }

  ghost predicate StoredAt(s: Scheme, steps: seq<Step>, path: Path, version: nat) {
    && Run(s, steps).Some? && path in Run(s, steps).value.store
    && Run(s, steps).value.store[path].primaryVersion == version
  }

  /** The record was loaded for this client: it is the client's or nobody's. */
  ghost predicate LoadedFor(s: Scheme, steps: seq<Step>, path: Path, r: Record, client: string) {
    && RecordFor(steps, path, r) && (r.clientId == "" || r.clientId == client)
    && WasStored(s, steps, path, r.primaryVersion)
  }

  /** The request in progress is the one that arrived under its id. */
  ghost predicate Begun(s: Scheme, steps: seq<Step>, id: nat, r: Request) {
    match r
    case CreateLookup(client, path, signing) => Arrive(id, r) in steps
    case CreatePost(client, path, signing) => Arrive(id, CreateLookup(client, path, signing)) in steps
    case CreateRead(client, path, signing) => Arrive(id, CreateLookup(client, path, signing)) in steps
    case CreatePut(path, record) => RecordFor(steps, path, record)
    case RotateLookup(_, _) => Arrive(id, r) in steps
    case RotatePost(path, record) => RotatesFor(s, steps, id, path, record)
    case RotateRead(path, record) => RotatesFor(s, steps, id, path, record)
    case RotatePut(path, record) => RecordFor(steps, path, record)
    case SignLookup(_, _, _) => Arrive(id, r) in steps
    case SignCall(path, record, message) => SignsFor(s, steps, id, path, record, message)
    case PublicLookup(_, _, _) => Arrive(id, r) in steps
    case PublicRead(path, record, version) => PublishesFor(s, steps, id, path, record, version)
  }

  ghost predicate RotatesFor(s: Scheme, steps: seq<Step>, id: nat, path: Path, record: Record) {
    exists client :: Arrive(id, RotateLookup(client, path)) in steps && LoadedFor(s, steps, path, record, client)
  }

  ghost predicate SignsFor(s: Scheme, steps: seq<Step>, id: nat, path: Path, record: Record, message: string) {
    && record.signing
    && exists client ::
         Arrive(id, SignLookup(client, path, message)) in steps && LoadedFor(s, steps, path, record, client)
  }

  ghost predicate PublishesFor(s: Scheme, steps: seq<Step>, id: nat, path: Path, record: Record, version: nat) {
    && record.signing
    && exists client ::
         Arrive(id, PublicLookup(client, path, version)) in steps && LoadedFor(s, steps, path, record, client)
  }

  /**
   A signature answers a request: that client asked for that message to be signed under that path, the key was
   created for signing by that client or for nobody, and its version was the stored one.
   */
  ghost predicate Answers(s: Scheme, steps: seq<Step>, x: Signed) {
    exists client, owner ::
      && Arrive(x.id, SignLookup(client, x.path, x.message)) in steps
      && (owner == "" || owner == client) && AskedToCreate(steps, owner, x.path, true)
      && WasStored(s, steps, x.path, x.version)
  }

  /** A public key answers a request: for the version that was asked for, or for the stored one if none was. */
  ghost predicate Publicizes(s: Scheme, steps: seq<Step>, x: Published) {
    exists client, owner, version ::
      && Arrive(x.id, PublicLookup(client, x.path, version)) in steps
      && (owner == "" || owner == client) && AskedToCreate(steps, owner, x.path, true)
      && (version == x.version || (version == 0 && WasStored(s, steps, x.path, x.version)))
  }

  ghost predicate Explained(s: Scheme, steps: seq<Step>, w: World) {
    && (forall id :: id in w.requests ==> Begun(s, steps, id, w.requests[id]))
    && (forall path :: path in w.store ==> RecordFor(steps, path, w.store[path]))
    && (forall i :: 0 <= i < |w.signed| ==> Answers(s, steps, w.signed[i]))
    && (forall i :: 0 <= i < |w.published| ==> Publicizes(s, steps, w.published[i]))
  }

  // ---------- more steps explain no less ----------

  lemma AskedGrows(steps: seq<Step>, x: Step, client: string, path: Path, signing: bool)
    requires AskedToCreate(steps, client, path, signing)
    ensures AskedToCreate(steps + [x], client, path, signing)
  {
    var id :| Arrive(id, CreateLookup(client, path, signing)) in steps;
    assert Arrive(id, CreateLookup(client, path, signing)) in steps + [x];
  }

  lemma WasStoredGrows(s: Scheme, steps: seq<Step>, x: Step, path: Path, version: nat)
    requires WasStored(s, steps, path, version)
    ensures WasStored(s, steps + [x], path, version)
  {
    hide StoredAt;
    var k: nat :| k <= |steps| && StoredAt(s, steps[..k], path, version);
    assert (steps + [x])[..k] == steps[..k];
  }

  lemma LoadedGrows(s: Scheme, steps: seq<Step>, x: Step, path: Path, r: Record, client: string)
    requires LoadedFor(s, steps, path, r, client)
    ensures LoadedFor(s, steps + [x], path, r, client)
  {
    hide WasStored, AskedToCreate;
    AskedGrows(steps, x, r.clientId, path, r.signing);
    WasStoredGrows(s, steps, x, path, r.primaryVersion);
  }

  lemma BegunGrows(s: Scheme, steps: seq<Step>, x: Step, id: nat, r: Request)
    requires Begun(s, steps, id, r)
    ensures Begun(s, steps + [x], id, r)
  {
    hide LoadedFor, AskedToCreate;
    match r
    case CreatePut(path, record) => AskedGrows(steps, x, record.clientId, path, record.signing);
    case RotatePut(path, record) => AskedGrows(steps, x, record.clientId, path, record.signing);
    case RotatePost(path, record) => RotatesGrows(s, steps, x, id, path, record);
    case RotateRead(path, record) => RotatesGrows(s, steps, x, id, path, record);
    case SignCall(path, record, message) =>
      var client :| Arrive(id, SignLookup(client, path, message)) in steps && LoadedFor(s, steps, path, record, client);
      LoadedGrows(s, steps, x, path, record, client);
      assert Arrive(id, SignLookup(client, path, message)) in steps + [x];
    case PublicRead(path, record, version) =>
      var client :|
        Arrive(id, PublicLookup(client, path, version)) in steps && LoadedFor(s, steps, path, record, client);
      LoadedGrows(s, steps, x, path, record, client);
      assert Arrive(id, PublicLookup(client, path, version)) in steps + [x];
    case _ =>
  }

  lemma RotatesGrows(s: Scheme, steps: seq<Step>, x: Step, id: nat, path: Path, record: Record)
    requires RotatesFor(s, steps, id, path, record)
    ensures RotatesFor(s, steps + [x], id, path, record)
  {
    hide LoadedFor;
    var client :| Arrive(id, RotateLookup(client, path)) in steps && LoadedFor(s, steps, path, record, client);
    LoadedGrows(s, steps, x, path, record, client);
    assert Arrive(id, RotateLookup(client, path)) in steps + [x];
  }

  lemma AnswersGrow(s: Scheme, steps: seq<Step>, x: Step, a: Signed)
    requires Answers(s, steps, a)
    ensures Answers(s, steps + [x], a)
  {
    hide WasStored, AskedToCreate;
    var client, owner :|
      && Arrive(a.id, SignLookup(client, a.path, a.message)) in steps
      && (owner == "" || owner == client) && AskedToCreate(steps, owner, a.path, true)
      && WasStored(s, steps, a.path, a.version);
    AskedGrows(steps, x, owner, a.path, true);
    WasStoredGrows(s, steps, x, a.path, a.version);
    assert Arrive(a.id, SignLookup(client, a.path, a.message)) in steps + [x];
  }

  lemma PublicizesGrows(s: Scheme, steps: seq<Step>, x: Step, a: Published)
    requires Publicizes(s, steps, a)
    ensures Publicizes(s, steps + [x], a)
  {
    hide WasStored, AskedToCreate;
    var client, owner, version :|
      && Arrive(a.id, PublicLookup(client, a.path, version)) in steps
      && (owner == "" || owner == client) && AskedToCreate(steps, owner, a.path, true)
      && (version == a.version || (version == 0 && WasStored(s, steps, a.path, a.version)));
    AskedGrows(steps, x, owner, a.path, true);
    if version != a.version {
      WasStoredGrows(s, steps, x, a.path, a.version);
    }
    assert Arrive(a.id, PublicLookup(client, a.path, version)) in steps + [x];
  }

  lemma ExplainedGrows(s: Scheme, steps: seq<Step>, x: Step, w: World)
    requires Explained(s, steps, w)
    ensures Explained(s, steps + [x], w)
  {
    hide Begun, Answers, Publicizes, AskedToCreate;
    forall id | id in w.requests ensures Begun(s, steps + [x], id, w.requests[id]) {
      BegunGrows(s, steps, x, id, w.requests[id]);
    }
    forall path | path in w.store ensures RecordFor(steps + [x], path, w.store[path]) {
      AskedGrows(steps, x, w.store[path].clientId, path, w.store[path].signing);
    }
    forall i | 0 <= i < |w.signed| ensures Answers(s, steps + [x], w.signed[i]) {
      AnswersGrow(s, steps, x, w.signed[i]);
    }
    forall i | 0 <= i < |w.published| ensures Publicizes(s, steps + [x], w.published[i]) {
      PublicizesGrows(s, steps, x, w.published[i]);
    }
  }

  // ---------- every call ----------

  /** Normalizing changes neither owner, kind nor version. */
  lemma NormalizedIsSame(s: Scheme, steps: seq<Step>, path: Path, r: Record, client: string)
    requires Run(s, steps).Some? && CanLoad(Run(s, steps).value, client, path) && r == Run(s, steps).value.store[path]
    requires RecordFor(steps, path, r)
    ensures LoadedFor(s, steps, path, Normalized(r), client) && Normalized(r).signing == r.signing
  {
    hide Run, AskedToCreate;
    assert steps[..|steps|] == steps;
    assert StoredAt(s, steps[..|steps|], path, r.primaryVersion);
  }

  lemma NextIsBegun(s: Scheme, steps: seq<Step>, id: nat, c: Choice)
    requires Run(s, steps).Some? && Explained(s, steps, Run(s, steps).value)
    requires var w := Run(s, steps).value; id in w.requests && CanAdvance(s, w, w.requests[id], c)
    ensures var w := Run(s, steps).value;
            var p := Advance(s, w, id, w.requests[id], c);
            p.next.Some? ==> Begun(s, steps, id, p.next.value)
  {
    hide Run, LoadedFor, AskedToCreate, Answers, Publicizes;
    var w := Run(s, steps).value;
    var r := w.requests[id];
    assert Begun(s, steps, id, r);
    match r
    case RotateLookup(client, path) => NormalizedIsSame(s, steps, path, w.store[path], client);
    case SignLookup(client, path, _) => NormalizedIsSame(s, steps, path, w.store[path], client);
    case PublicLookup(client, path, _) => NormalizedIsSame(s, steps, path, w.store[path], client);
    case CreateRead(client, path, signing) => ArrivedIsAsked(steps, id, client, path, signing);
    case RotateRead(path, record) => RotatesForIsRecordFor(s, steps, id, path, record);
    case _ =>
  }

  lemma ArrivedIsAsked(steps: seq<Step>, id: nat, client: string, path: Path, signing: bool)
    requires Arrive(id, CreateLookup(client, path, signing)) in steps
    ensures AskedToCreate(steps, client, path, signing)
  {
  }

  lemma RotatesForIsRecordFor(s: Scheme, steps: seq<Step>, id: nat, path: Path, record: Record)
    requires RotatesFor(s, steps, id, path, record)
    ensures forall v :: RecordFor(steps, path, Normalized(record.(primaryVersion := v)))
  {
    hide AskedToCreate, WasStored;
  }

  /** What a call stores or returns is explained by the steps so far. */
  lemma AdvanceIsExplained(s: Scheme, steps: seq<Step>, id: nat, c: Choice)
    requires Run(s, steps).Some? && Explained(s, steps, Run(s, steps).value)
    requires var w := Run(s, steps).value; id in w.requests && CanAdvance(s, w, w.requests[id], c)
    ensures var w := Run(s, steps).value;
            var w' := Advance(s, w, id, w.requests[id], c).world;
            && (forall path :: path in w'.store ==> RecordFor(steps, path, w'.store[path]))
            && (forall i :: 0 <= i < |w'.signed| ==> Answers(s, steps, w'.signed[i]))
            && (forall i :: 0 <= i < |w'.published| ==> Publicizes(s, steps, w'.published[i]))
  {
    hide Run, AskedToCreate, WasStored, PublicKeyForVersion;
    var w := Run(s, steps).value;
    var r := w.requests[id];
    assert Begun(s, steps, id, r);
  }

  lemma StepIsExplained(s: Scheme, steps: seq<Step>, x: Step)
    requires Run(s, steps).Some? && Explained(s, steps, Run(s, steps).value) && Enabled(s, Run(s, steps).value, x)
    ensures Explained(s, steps + [x], Apply(s, Run(s, steps).value, x))
  {
    hide Run, Begun, Answers, Publicizes, RecordFor, Advance, CanAdvance;
    var w := Run(s, steps).value;
    var w' := Apply(s, w, x);
    ExplainedGrows(s, steps, x, w);
    match x
    case Arrive(id, request) => ArrivalIsBegun(s, steps, id, request);
    case Abandon(_) =>
    case Succeed(id, c) =>
      NextIsBegun(s, steps, id, c);
      AdvanceIsExplained(s, steps, id, c);
      var p := Advance(s, w, id, w.requests[id], c);
      var requests := if p.next.Some? then w.requests[id := p.next.value] else w.requests - {id};
      CallIsExplained(s, steps, x, w, p.world, requests);
    case LoseAnswer(id, c) =>
      AdvanceIsExplained(s, steps, id, c);
      var p := Advance(s, w, id, w.requests[id], c);
      CallIsExplained(s, steps, x, w, p.world.(signed := w.signed, published := w.published), w.requests - {id});
  }

  lemma ArrivalIsBegun(s: Scheme, steps: seq<Step>, id: nat, request: Request)
    requires IsNew(request)
    ensures Begun(s, steps + [Arrive(id, request)], id, request)
  {
    assert Arrive(id, request) in steps + [Arrive(id, request)];
  }

  /** A world explained by the steps before the call is explained by the steps with the call. */
  lemma CallIsExplained(s: Scheme, steps: seq<Step>, x: Step, w: World, w': World, requests: map<nat, Request>)
    requires Explained(s, steps, w)
    requires forall id :: id in requests ==> Begun(s, steps, id, requests[id])
    requires forall path :: path in w'.store ==> RecordFor(steps, path, w'.store[path])
    requires forall i :: 0 <= i < |w'.signed| ==> Answers(s, steps, w'.signed[i])
    requires forall i :: 0 <= i < |w'.published| ==> Publicizes(s, steps, w'.published[i])
    ensures Explained(s, steps + [x], w'.(requests := requests))
  {
    hide Begun, Answers, Publicizes, RecordFor;
    ExplainedGrows(s, steps, x, w'.(requests := requests));
  }

  lemma {:induction false} RunIsExplained(s: Scheme, steps: seq<Step>)
    requires Run(s, steps).Some?
    ensures Explained(s, steps, Run(s, steps).value)
  {
    hide Begun, Answers, Publicizes, RecordFor, Apply, Enabled;
    if steps != [] {
      var n := |steps| - 1;
      RunIsExplained(s, steps[..n]);
      StepIsExplained(s, steps[..n], steps[n]);
      assert steps == steps[..n] + [steps[n]];
    }
  }

  // ---------- what callers may rely on ----------

  /** In every run, each signature answers a request that arrived, and each public key likewise. */
  lemma AnswersBelongToRequests(s: Scheme, steps: seq<Step>)
    requires Run(s, steps).Some?
    ensures var w := Run(s, steps).value;
            && (forall i :: 0 <= i < |w.signed| ==> Answers(s, steps, w.signed[i]))
            && (forall j :: 0 <= j < |w.published| ==> Publicizes(s, steps, w.published[j]))
            && (forall path :: path in w.store ==>
                  AskedToCreate(steps, w.store[path].clientId, path, w.store[path].signing))
  {
    hide Run, Begun, Answers, Publicizes, AskedToCreate;
    RunIsExplained(s, steps);
    var w := Run(s, steps).value;
    forall path | path in w.store ensures AskedToCreate(steps, w.store[path].clientId, path, w.store[path].signing) {
      assert RecordFor(steps, path, w.store[path]);
    }
  }

  /**
   The message that a client asked to be signed is the one that verifies: under every public key ever returned for
   the signature's version of that key.
   */
  lemma ArrivedMessageVerifies(s: Scheme, steps: seq<Step>, i: nat, j: nat)
    requires Signatures.Correct(s) && Run(s, steps).Some?
    requires i < |Run(s, steps).value.signed| && j < |Run(s, steps).value.published|
    requires var w := Run(s, steps).value;
             w.signed[i].path == w.published[j].path && w.signed[i].version == w.published[j].version
    ensures var w := Run(s, steps).value;
            exists client, message ::
              && Arrive(w.signed[i].id, SignLookup(client, w.signed[i].path, message)) in steps
              && s.verify(w.published[j].publicKey, message, w.signed[i].signature)
  {
    hide Run, Publicizes, AskedToCreate, WasStored;
    AnswersBelongToRequests(s, steps);
    SignaturesVerify(s, steps, i, j);
    assert Answers(s, steps, Run(s, steps).value.signed[i]);
  }

  // ---------- requests do get answers ----------

  /** The requests' steps after a key has been created: sign a message, then ask for the stored version's key. */
  function SignAndPublish(message: string, publicKey: string): seq<Step> {
    [Arrive(1, SignLookup("client", PATH, message))] + [Succeed(1, Shows(1))] + [Succeed(1, Shows(1))]
    + [Arrive(2, PublicLookup("client", PATH, 0))] + [Succeed(2, Shows(1))]
    + [Succeed(2, Choice("", KeyInfo(1, publicKey, map[])))]
  }

  lemma SignCalls(s: Scheme, message: string)
    ensures var w := Sample(1, 1, map[1 := SignLookup("client", PATH, message)]);
            && Enabled(s, w, Succeed(1, Shows(1)))
            && Apply(s, w, Succeed(1, Shows(1))) == Sample(1, 1, map[1 := SignCall(PATH, Stored(1), message)])
    ensures var w := Sample(1, 1, map[1 := SignCall(PATH, Stored(1), message)]);
            && Enabled(s, w, Succeed(1, Shows(1)))
            && Apply(s, w, Succeed(1, Shows(1)))
               == Sample(1, 1, map[]).(signed := [Signed(1, PATH, 1, message, s.sign("secret", message))])
  {
    ScopedKeyIsNotEmpty(PATH);
  }

  lemma PublicCalls(s: Scheme, signed: seq<Signed>)
    requires s.public("secret") != ""
    ensures var w := Sample(1, 1, map[2 := PublicLookup("client", PATH, 0)]).(signed := signed);
            && Enabled(s, w, Succeed(2, Shows(1)))
            && Apply(s, w, Succeed(2, Shows(1)))
               == Sample(1, 1, map[2 := PublicRead(PATH, Stored(1), 0)]).(signed := signed)
    ensures var w := Sample(1, 1, map[2 := PublicRead(PATH, Stored(1), 0)]).(signed := signed);
            var c := Choice("", KeyInfo(1, s.public("secret"), map[]));
            && Enabled(s, w, Succeed(2, c))
            && Apply(s, w, Succeed(2, c))
               == Sample(1, 1, map[]).(signed := signed, published := [Published(2, PATH, 1, s.public("secret"))])
  {
    ScopedKeyIsNotEmpty(PATH);
  }

  lemma Arrivals(s: Scheme, message: string, signed: seq<Signed>)
    ensures var w := Sample(1, 1, map[]);
            && Enabled(s, w, Arrive(1, SignLookup("client", PATH, message)))
            && Apply(s, w, Arrive(1, SignLookup("client", PATH, message)))
               == Sample(1, 1, map[1 := SignLookup("client", PATH, message)])
    ensures var w := Sample(1, 1, map[]).(signed := signed);
            && Enabled(s, w, Arrive(2, PublicLookup("client", PATH, 0)))
            && Apply(s, w, Arrive(2, PublicLookup("client", PATH, 0)))
               == Sample(1, 1, map[2 := PublicLookup("client", PATH, 0)]).(signed := signed)
  {
  }

  /**
   After its creation a key signs: the run ends with the signature of the message that was sent, and with the
   public key of the version that signed it.
   */
  lemma SigningWorks(s: Scheme, message: string)
    requires s.public("secret") != ""
    ensures var r := Run(s, CREATION + SignAndPublish(message, s.public("secret")));
            && r.Some? && r.value.signed == [Signed(1, PATH, 1, message, s.sign("secret", message))]
            && r.value.published == [Published(2, PATH, 1, s.public("secret"))]
  {
    hide Run, Enabled, Apply, Sample, Stored, Shows;
    var signed := [Signed(1, PATH, 1, message, s.sign("secret", message))];
    var c := Choice("", KeyInfo(1, s.public("secret"), map[]));
    CreationRuns(s);
    Arrivals(s, message, signed);
    SignCalls(s, message);
    PublicCalls(s, signed);
    var t := CREATION;
    OneMoreStep(s, t, Sample(1, 1, map[]), Arrive(1, SignLookup("client", PATH, message)));
    t := t + [Arrive(1, SignLookup("client", PATH, message))];
    OneMoreStep(s, t, Sample(1, 1, map[1 := SignLookup("client", PATH, message)]), Succeed(1, Shows(1)));
    t := t + [Succeed(1, Shows(1))];
    OneMoreStep(s, t, Sample(1, 1, map[1 := SignCall(PATH, Stored(1), message)]), Succeed(1, Shows(1)));
    t := t + [Succeed(1, Shows(1))];
    var w := Sample(1, 1, map[]).(signed := signed);
    OneMoreStep(s, t, w, Arrive(2, PublicLookup("client", PATH, 0)));
    t := t + [Arrive(2, PublicLookup("client", PATH, 0))];
    w := Sample(1, 1, map[2 := PublicLookup("client", PATH, 0)]).(signed := signed);
    OneMoreStep(s, t, w, Succeed(2, Shows(1)));
    t := t + [Succeed(2, Shows(1))];
    w := Sample(1, 1, map[2 := PublicRead(PATH, Stored(1), 0)]).(signed := signed);
    OneMoreStep(s, t, w, Succeed(2, c));
    assert t + [Succeed(2, c)] == CREATION + SignAndPublish(message, s.public("secret"));
  }
}
