/**
 When the stored primary version of a key grows, and when it falls.

 A rotation reads its new version from the backend after its own rotate call and stores it later, without
 looking at the record again; so does a creation. What happens to the stored version then depends on the
 last store under the same path in between, and a run shows that it can fall.
 */
module Rotations {
  import opened Outcomes
  import opened KeyVersions

  // ---------- stores ----------

  predicate IsPut(r: Request) {
    r.CreatePut? || r.RotatePut?
  }

  /** The step stores a record under `path`, whether or not its answer arrives. */
  predicate Stores(w: World, step: Step, path: Path) {
    && (step.Succeed? || step.LoseAnswer?) && step.id in w.requests
    && IsPut(w.requests[step.id]) && w.requests[step.id].path == path
  }

  function StoredVersion(w: World, path: Path): Option<nat> {
    if path in w.store then Some(w.store[path].primaryVersion) else None
  }

  lemma StoreChangesOnlyByPuts(s: Scheme, w: World, step: Step, path: Path)
    requires Enabled(s, w, step)
    ensures StoredVersion(Apply(s, w, step), path)
         == if Stores(w, step, path) then Some(w.requests[step.id].record.primaryVersion) else StoredVersion(w, path)
  {
  }

  /** The version that the last store under `path` during `more` put there, if there was one. */
  ghost function LastStored(s: Scheme, before: seq<Step>, more: seq<Step>, path: Path): Option<nat> {
    if more == [] then None
    else
      var n := |more| - 1;
      match Run(s, before + more[..n])
      case Some(w) =>
        if Stores(w, more[n], path) then Some(w.requests[more[n].id].record.primaryVersion)
        else LastStored(s, before, more[..n], path)
      case None => None
  }

  lemma RunOfPrefix(s: Scheme, before: seq<Step>, more: seq<Step>)
    requires more != [] && Run(s, before + more).Some?
    ensures var n := |more| - 1;
            var w := Run(s, before + more[..n]);
            && w.Some? && Enabled(s, w.value, more[n]) && Run(s, before + more) == Some(Apply(s, w.value, more[n]))
  {
    hide Enabled, Apply;
    var all := before + more;
    assert all[..|all| - 1] == before + more[..|more| - 1];
  }

  /** What is stored after `more` is what its last store put there, or what was stored before. */
  lemma {:induction false} StoredIsLastStored(s: Scheme, before: seq<Step>, more: seq<Step>, path: Path)
    requires Run(s, before + more).Some?
    ensures Run(s, before).Some?
    ensures var last := LastStored(s, before, more, path);
            StoredVersion(Run(s, before + more).value, path)
            == if last.Some? then last else StoredVersion(Run(s, before).value, path)
  {
    hide Enabled, Apply, Stores, StoredVersion, Run;
    if more == [] {
      assert before + more == before;
    } else {
      var n := |more| - 1;
      RunOfPrefix(s, before, more);
      StoredIsLastStored(s, before, more[..n], path);
      StoreChangesOnlyByPuts(s, Run(s, before + more[..n]).value, more[n], path);
    }
  }

  // ---------- a rotation is ahead of what was stored when it rotated ----------

  /** What the request carries, or will read, is newer than version `n` once it has rotated. */
  ghost predicate Ahead(b: Backend, r: Request, path: Path, n: nat) {
    match r
    case RotateRead(p, _) => p == path ==> ScopedKey(path) in b && n < |b[ScopedKey(path)].versions|
    case RotatePut(p, record) => p == path ==> n < record.primaryVersion
    case _ => true
  }

  ghost predicate Tracked(w: World, id: nat, path: Path, n: nat) {
    && ScopedKey(path) in w.backend && n <= |w.backend[ScopedKey(path)].versions|
    && (id in w.requests ==> Ahead(w.backend, w.requests[id], path, n))
  }

  lemma AdvanceKeepsAhead(s: Scheme, w: World, id: nat, r: Request, c: Choice, path: Path, n: nat)
    requires CanAdvance(s, w, r, c) && RequestOk(w.backend, r) && Ahead(w.backend, r, path, n)
    requires ScopedKey(path) in w.backend && n <= |w.backend[ScopedKey(path)].versions|
    ensures var p := Advance(s, w, id, r, c); p.next.Some? ==> Ahead(p.world.backend, p.next.value, path, n)
  {
  }

  lemma StepKeepsTracked(s: Scheme, w: World, step: Step, id: nat, path: Path, n: nat)
    requires Inv(s, w) && Enabled(s, w, step) && Tracked(w, id, path, n)
    ensures Tracked(Apply(s, w, step), id, path, n)
  {
    hide Advance, CanAdvance, StoreOk, AnswersOk, BackendOk, RequestOk;
    StepGrowsBackend(s, w, step);
    var w' := Apply(s, w, step);
    assert w.backend[ScopedKey(path)].versions <= w'.backend[ScopedKey(path)].versions;
    if step.Succeed? && step.id == id {
      AdvanceKeepsAhead(s, w, id, w.requests[id], step.choice, path, n);
    }
  }

  lemma {:induction false} RunKeepsTracked(s: Scheme, before: seq<Step>, more: seq<Step>, id: nat, path: Path, n: nat)
    requires Run(s, before + more).Some? && Run(s, before).Some? && Tracked(Run(s, before).value, id, path, n)
    ensures Tracked(Run(s, before + more).value, id, path, n)
  {
    hide Enabled, Apply, Tracked, Run, Inv;
    if more == [] {
      assert before + more == before;
    } else {
      RunOfPrefix(s, before, more);
      RunKeepsTracked(s, before, more[..|more| - 1], id, path, n);
      RunKeepsInv(s, before + more[..|more| - 1]);
      StepKeepsTracked(s, Run(s, before + more[..|more| - 1]).value, more[|more| - 1], id, path, n);
    }
  }

  // ---------- when a put raises the stored version, and when it lowers it ----------

  /** Request `id` stands before its rotate call on `path` in the first world and before its put in the second. */
  ghost predicate Rotates(w0: World, w1: World, id: nat, path: Path) {
    && id in w0.requests && w0.requests[id].path == path
    && (w0.requests[id].RotateLookup? || w0.requests[id].RotatePost?)
    && id in w1.requests && w1.requests[id].RotatePut? && w1.requests[id].path == path
  }

  /** A rotation carries a newer version than any that was stored when it made its rotate call. */
  lemma RotationIsNewer(s: Scheme, before: seq<Step>, more: seq<Step>, id: nat, path: Path)
    requires Run(s, before).Some? && Run(s, before + more).Some?
    requires Rotates(Run(s, before).value, Run(s, before + more).value, id, path)
    requires path in Run(s, before).value.store
    ensures var w0, w1 := Run(s, before).value, Run(s, before + more).value;
            w0.store[path].primaryVersion < w1.requests[id].record.primaryVersion
  {
    hide Run, Inv;
    PrimaryVersionExists(s, before, path);
    RunKeepsTracked(s, before, more, id, path, Run(s, before).value.store[path].primaryVersion);
  }

  /** A rotation under way has loaded the record of its path, and records are never removed. */
  ghost predicate Loaded(w: World) {
    forall id :: id in w.requests && (var r := w.requests[id]; r.RotatePost? || r.RotateRead? || r.RotatePut?) ==>
      w.requests[id].path in w.store
  }

  lemma {:induction false} RunKeepsLoaded(s: Scheme, steps: seq<Step>)
    requires Run(s, steps).Some?
    ensures Loaded(Run(s, steps).value)
  {
    hide Enabled, Apply, Loaded;
    if steps == [] {
      NothingToLoad();
    } else {
      RunKeepsLoaded(s, steps[..|steps| - 1]);
      StepKeepsLoaded(s, Run(s, steps[..|steps| - 1]).value, steps[|steps| - 1]);
    }
  }

  lemma NothingToLoad()
    ensures Loaded(EMPTY)
  {
  }

  lemma StepKeepsLoaded(s: Scheme, w: World, step: Step)
    requires Loaded(w) && Enabled(s, w, step)
    ensures Loaded(Apply(s, w, step))
  {
  }

  /** The put of request `id`, answered or not. */
  predicate IsPutOf(step: Step, id: nat) {
    (step.Succeed? || step.LoseAnswer?) && step.id == id
  }

  /**
   In every run, the put of a rotation stores the rotation's own version. It raises the stored version if and
   only if the last store under the path since the rotate call was older (or there was none), and lowers it if
   and only if that store was newer. Reading the record again before the put tells which.
   */
  lemma RotationRaisesExactlyWhen(s: Scheme, before: seq<Step>, more: seq<Step>, id: nat, path: Path, put: Step)
    requires Run(s, before).Some? && Run(s, before + more).Some?
    requires Rotates(Run(s, before).value, Run(s, before + more).value, id, path)
    requires IsPutOf(put, id)
    ensures Run(s, before + more + [put]).Some?
    ensures var w1, w2 := Run(s, before + more).value, Run(s, before + more + [put]).value;
            var own, last := w1.requests[id].record.primaryVersion, LastStored(s, before, more, path);
            && path in w1.store && path in w2.store && w2.store[path].primaryVersion == own
            && (last.Some? ==> w1.store[path].primaryVersion == last.value)
            && (w2.store[path].primaryVersion > w1.store[path].primaryVersion <==> last.None? || last.value < own)
            && (w2.store[path].primaryVersion < w1.store[path].primaryVersion <==> last.Some? && last.value > own)
  {
    hide Run, Inv, LastStored;
    var w1 := Run(s, before + more).value;
    RunKeepsLoaded(s, before + more);
    if path in Run(s, before).value.store {
      RotationIsNewer(s, before, more, id, path);
    }
    StoredIsLastStored(s, before, more, path);
    PutSucceeds(s, before + more, put);
    StoreChangesOnlyByPuts(s, w1, put, path);
  }

  lemma PutSucceeds(s: Scheme, steps: seq<Step>, put: Step)
    requires Run(s, steps).Some? && (put.Succeed? || put.LoseAnswer?)
    requires put.id in Run(s, steps).value.requests && IsPut(Run(s, steps).value.requests[put.id])
    ensures Enabled(s, Run(s, steps).value, put) && Run(s, steps + [put]) == Some(Apply(s, Run(s, steps).value, put))
  {
    hide Apply;
    assert (steps + [put])[..|steps|] == steps;
  }

  /**
   A creation looks the path up while nothing is stored there. Its put is the first store under the path if and
   only if there was none in between, and lowers the stored version if and only if the last one was newer.
   */
  lemma CreationLowersExactlyWhen(s: Scheme, before: seq<Step>, more: seq<Step>, id: nat, path: Path, put: Step)
    requires Run(s, before).Some? && Run(s, before + more).Some? && path !in Run(s, before).value.store
    requires var w1 := Run(s, before + more).value;
             id in w1.requests && w1.requests[id].CreatePut? && w1.requests[id].path == path && IsPutOf(put, id)
    ensures Run(s, before + more + [put]).Some?
    ensures var w1, w2 := Run(s, before + more).value, Run(s, before + more + [put]).value;
            var own, last := w1.requests[id].record.primaryVersion, LastStored(s, before, more, path);
            && (path in w1.store <==> last.Some?)
            && path in w2.store && w2.store[path].primaryVersion == own
            && (last.Some? ==> w1.store[path].primaryVersion == last.value
                               && (w2.store[path].primaryVersion < w1.store[path].primaryVersion <==> last.value > own))
  {
    hide Run, LastStored;
    StoredIsLastStored(s, before, more, path);
    PutSucceeds(s, before + more, put);
    StoreChangesOnlyByPuts(s, Run(s, before + more).value, put, path);
  }

  // ---------- a run in which the stored version falls ----------

  const PATH: Path := Path("tenant", "key")

  function Stored(version: nat): Record {
    Record("client", ScopedKey(PATH), "", true, version)
  }

  /** One key with `versions` versions, of which `stored` is the primary one, and these requests. */
  function Sample(versions: nat, stored: nat, requests: map<nat, Request>): World {
    World(map[PATH := Stored(stored)],
          map[ScopedKey(PATH) := TransitKey(true, seq(versions, _ => "secret"))], requests, [], [])
  }

  /** A backend that shows the number of versions and no public keys. */
  function Shows(versions: nat): Choice {
    Choice("secret", KeyInfo(versions, "", map[]))
  }

  function RotateRequest(): Request {
    RotateLookup("client", PATH)
  }

  lemma SampleArrives(s: Scheme, k: nat, v: nat, rs: map<nat, Request>, id: nat)
    requires id !in rs
    ensures Enabled(s, Sample(k, v, rs), Arrive(id, RotateRequest()))
    ensures Apply(s, Sample(k, v, rs), Arrive(id, RotateRequest())) == Sample(k, v, rs[id := RotateRequest()])
  {
  }

  lemma SampleLooksUp(s: Scheme, k: nat, v: nat, rs: map<nat, Request>, id: nat)
    requires id in rs && rs[id] == RotateRequest()
    ensures Enabled(s, Sample(k, v, rs), Succeed(id, Shows(k)))
    ensures Apply(s, Sample(k, v, rs), Succeed(id, Shows(k))) == Sample(k, v, rs[id := RotatePost(PATH, Stored(v))])
  {
    ScopedKeyIsNotEmpty(PATH);
  }

  lemma SampleRotates(s: Scheme, k: nat, v: nat, rs: map<nat, Request>, id: nat, u: nat)
    requires id in rs && rs[id] == RotatePost(PATH, Stored(u))
    ensures Enabled(s, Sample(k, v, rs), Succeed(id, Shows(k)))
    ensures Apply(s, Sample(k, v, rs), Succeed(id, Shows(k))) == Sample(k + 1, v, rs[id := RotateRead(PATH, Stored(u))])
  {
    ScopedKeyIsNotEmpty(PATH);
    var w, w' := Sample(k, v, rs), Apply(s, Sample(k, v, rs), Succeed(id, Shows(k)));
    assert w.backend[ScopedKey(PATH)].versions + ["secret"] == seq(k + 1, _ => "secret");
    assert w'.backend == Sample(k + 1, v, rs).backend;
  }

  lemma SampleReads(s: Scheme, k: nat, v: nat, rs: map<nat, Request>, id: nat, u: nat)
    requires id in rs && rs[id] == RotateRead(PATH, Stored(u)) && k < 10
    ensures Enabled(s, Sample(k, v, rs), Succeed(id, Shows(k)))
    ensures Apply(s, Sample(k, v, rs), Succeed(id, Shows(k))) == Sample(k, v, rs[id := RotatePut(PATH, Stored(k))])
  {
    ScopedKeyIsNotEmpty(PATH);
  }

  lemma SamplePuts(s: Scheme, k: nat, v: nat, rs: map<nat, Request>, id: nat, u: nat)
    requires id in rs && rs[id] == RotatePut(PATH, Stored(u))
    ensures Enabled(s, Sample(k, v, rs), Succeed(id, Shows(k)))
    ensures Apply(s, Sample(k, v, rs), Succeed(id, Shows(k))) == Sample(k, u, rs - {id})
  {
    assert Sample(k, v, rs).store[PATH := Stored(u)] == Sample(k, u, rs - {id}).store;
  }

  lemma OneMoreStep(s: Scheme, steps: seq<Step>, w: World, step: Step)
    requires Run(s, steps) == Some(w) && Enabled(s, w, step)
    ensures Run(s, steps + [step]) == Some(Apply(s, w, step))
  {
    hide Enabled, Apply;
    assert (steps + [step])[..|steps|] == steps;
  }

  /** The calls of a rotation up to its put, which is left pending. */
  function RotationSteps(id: nat, versions: nat): seq<Step> {
    [Arrive(id, RotateRequest())] + [Succeed(id, Shows(versions))] + [Succeed(id, Shows(versions))]
    + [Succeed(id, Shows(versions + 1))]
  }

  lemma RotationRuns(s: Scheme, steps: seq<Step>, k: nat, v: nat, rs: map<nat, Request>, id: nat)
    requires Run(s, steps) == Some(Sample(k, v, rs)) && id !in rs && k < 9
    ensures Run(s, steps + RotationSteps(id, k)) == Some(Sample(k + 1, v, rs[id := RotatePut(PATH, Stored(k + 1))]))
  {
    hide Run, Enabled, Apply, Sample, Stored, Shows, RotateRequest;
    var q := rs[id := RotateRequest()];
    var t := steps + [Arrive(id, RotateRequest())];
    SampleArrives(s, k, v, rs, id);
    OneMoreStep(s, steps, Sample(k, v, rs), Arrive(id, RotateRequest()));
    SampleLooksUp(s, k, v, q, id);
    OneMoreStep(s, t, Sample(k, v, q), Succeed(id, Shows(k)));
    q, t := q[id := RotatePost(PATH, Stored(v))], t + [Succeed(id, Shows(k))];
    SampleRotates(s, k, v, q, id, v);
    OneMoreStep(s, t, Sample(k, v, q), Succeed(id, Shows(k)));
    q, t := q[id := RotateRead(PATH, Stored(v))], t + [Succeed(id, Shows(k))];
    SampleReads(s, k + 1, v, q, id, v);
    OneMoreStep(s, t, Sample(k + 1, v, q), Succeed(id, Shows(k + 1)));
    assert q[id := RotatePut(PATH, Stored(k + 1))] == rs[id := RotatePut(PATH, Stored(k + 1))];
    assert t + [Succeed(id, Shows(k + 1))] == steps + RotationSteps(id, k);
  }

  const CREATION: seq<Step> :=
    [Arrive(0, CreateLookup("client", PATH, true))] + [Succeed(0, Shows(1))] + [Succeed(0, Shows(1))]
    + [Succeed(0, Shows(1))] + [Succeed(0, Shows(1))]

  /** The worlds on the way. */
  function Creating(versions: nat, request: Request): World {
    World(map[], if versions == 0 then map[] else Sample(versions, 0, map[]).backend, map[0 := request], [], [])
  }

  lemma CreationCalls(s: Scheme)
    ensures var w := Creating(0, CreateLookup("client", PATH, true));
            Enabled(s, w, Succeed(0, Shows(1)))
            && Apply(s, w, Succeed(0, Shows(1))) == Creating(0, CreatePost("client", PATH, true))
    ensures var w := Creating(0, CreatePost("client", PATH, true));
            Enabled(s, w, Succeed(0, Shows(1)))
            && Apply(s, w, Succeed(0, Shows(1))) == Creating(1, CreateRead("client", PATH, true))
  {
    assert ["secret"] == seq(1, _ => "secret");
  }

  lemma CreationStores(s: Scheme)
    ensures var w := Creating(1, CreateRead("client", PATH, true));
            Enabled(s, w, Succeed(0, Shows(1)))
              && Apply(s, w, Succeed(0, Shows(1))) == Creating(1, CreatePut(PATH, Stored(1)))
    ensures var w := Creating(1, CreatePut(PATH, Stored(1)));
            Enabled(s, w, Succeed(0, Shows(1))) && Apply(s, w, Succeed(0, Shows(1))) == Sample(1, 1, map[])
  {
    ScopedKeyIsNotEmpty(PATH);
  }

  lemma CreationArrives(s: Scheme)
    ensures var r := CreateLookup("client", PATH, true);
            && Run(s, []) == Some(EMPTY) && Enabled(s, EMPTY, Arrive(0, r))
              && Apply(s, EMPTY, Arrive(0, r)) == Creating(0, r)
  {
  }

  lemma CreationRuns(s: Scheme)
    ensures Run(s, CREATION) == Some(Sample(1, 1, map[]))
  {
    hide Run, Enabled, Apply, Sample, Stored, Shows, Creating;
    var r := CreateLookup("client", PATH, true);
    CreationArrives(s);
    CreationCalls(s);
    CreationStores(s);
    var t := [Arrive(0, r)];
    OneMoreStep(s, [], EMPTY, Arrive(0, r));
    assert [] + t == t;
    OneMoreStep(s, t, Creating(0, r), Succeed(0, Shows(1)));
    t := t + [Succeed(0, Shows(1))];
    OneMoreStep(s, t, Creating(0, CreatePost("client", PATH, true)), Succeed(0, Shows(1)));
    t := t + [Succeed(0, Shows(1))];
    OneMoreStep(s, t, Creating(1, CreateRead("client", PATH, true)), Succeed(0, Shows(1)));
    t := t + [Succeed(0, Shows(1))];
    OneMoreStep(s, t, Creating(1, CreatePut(PATH, Stored(1))), Succeed(0, Shows(1)));
    assert t + [Succeed(0, Shows(1))] == CREATION;
  }

  /** A key is created; rotation 1 reads version 2; rotation 2 reads version 3 and stores it; then rotation 1 stores. */
  const RACE: seq<Step> := CREATION + RotationSteps(1, 1) + RotationSteps(2, 2) + [Succeed(2, Shows(3))]

  /** The stored version need not grow: in this run it is 3, and the next step makes it 2. */
  lemma OlderRotationMayWin(s: Scheme)
    ensures Run(s, RACE).Some? && StoredVersion(Run(s, RACE).value, PATH) == Some(3)
    ensures var next := Run(s, RACE + [Succeed(1, Shows(3))]);
            next.Some? && StoredVersion(next.value, PATH) == Some(2)
  {
    hide Run, Enabled, Apply, RotationSteps, Shows;
    CreationRuns(s);
    RotationRuns(s, CREATION, 1, 1, map[], 1);
    var one: map<nat, Request> := map[1 := RotatePut(PATH, Stored(2))];
    assert map[][1 := RotatePut(PATH, Stored(2))] == one;
    RotationRuns(s, CREATION + RotationSteps(1, 1), 2, 1, one, 2);
    var two := one[2 := RotatePut(PATH, Stored(3))];
    SamplePuts(s, 3, 1, two, 2, 3);
    OneMoreStep(s, CREATION + RotationSteps(1, 1) + RotationSteps(2, 2), Sample(3, 1, two), Succeed(2, Shows(3)));
    assert two - {2} == one;
    SamplePuts(s, 3, 3, one, 1, 2);
    OneMoreStep(s, RACE, Sample(3, 3, one), Succeed(1, Shows(3)));
  }
}
