/** Lookups of the key cache, seen from the steps of a run: whose they are, and when they need no fetch. */
module JwksLookups {
  import opened Outcomes
  import opened PatTokens
  import opened JwksCache

  // ---------- answers belong to lookups ----------

  /** A lookup for `kid` began with step `k` of the run, when things stood as `start` says. */
  ghost predicate BeganAt(s: Scheme, minRefresh: int, first: World, steps: seq<Step>, k: nat,
                          id: nat, kid: string, start: Start) {
    && k < |steps| && steps[k] == Arrive(id, kid)
    && Run(s, minRefresh, first, steps[..k]).Some?
    && var w := Run(s, minRefresh, first, steps[..k]).value;
    && start.at == w.now && start.fetches == |w.fetches| && start.published == |w.versions|
    && (start.free <==> w.holder.None?)
  }

  ghost predicate Began(s: Scheme, minRefresh: int, first: World, steps: seq<Step>,
                        id: nat, kid: string, start: Start) {
    exists k: nat :: BeganAt(s, minRefresh, first, steps, k, id, kid, start)
  }

  lemma BeganGrows(s: Scheme, minRefresh: int, first: World, steps: seq<Step>, x: Step,
                   id: nat, kid: string, start: Start)
    requires Began(s, minRefresh, first, steps, id, kid, start)
    ensures Began(s, minRefresh, first, steps + [x], id, kid, start)
  {
    hide Run;
    var k: nat :| BeganAt(s, minRefresh, first, steps, k, id, kid, start);
    assert (steps + [x])[..k] == steps[..k];
    assert BeganAt(s, minRefresh, first, steps + [x], k, id, kid, start);
  }

  ghost predicate Explained(s: Scheme, minRefresh: int, first: World, steps: seq<Step>, w: World) {
    && (forall id :: id in w.calls ==> Began(s, minRefresh, first, steps, id, w.calls[id].kid, w.calls[id].start))
    && (forall i :: 0 <= i < |w.answers| ==>
          Began(s, minRefresh, first, steps, w.answers[i].id, w.answers[i].kid, w.answers[i].start))
  }

  ghost predicate CallsKept(w: World, w': World) {
    forall id :: id in w'.calls ==>
      id in w.calls && w'.calls[id].kid == w.calls[id].kid && w'.calls[id].start == w.calls[id].start
  }

  ghost predicate AnswersKept(w: World, w': World) {
    || w'.answers == w.answers
    || (|w'.answers| == |w.answers| + 1 && w.answers == w'.answers[..|w.answers|]
        && var a := w'.answers[|w.answers|];
        a.id in w.calls && a.kid == w.calls[a.id].kid && a.start == w.calls[a.id].start)
  }

  lemma MoveKeeps(w: World, w1: World, id: nat, phase: Phase)
    requires id in w1.calls && w1.calls == w.calls && w1.answers == w.answers
    ensures CallsKept(w, At(w1, id, phase)) && AnswersKept(w, At(w1, id, phase))
  {
  }

  lemma ReplyKeeps(w: World, w1: World, id: nat, outcome: Outcome)
    requires id in w1.calls && w1.calls == w.calls && w1.answers == w.answers
    ensures CallsKept(w, Reply(w1, id, outcome)) && AnswersKept(w, Reply(w1, id, outcome))
  {
    assert Reply(w1, id, outcome).answers[..|w.answers|] == w.answers;
  }

  ghost predicate Moved(w: World, id: nat, w': World) {
    exists w1: World, phase ::
      id in w1.calls && w1.calls == w.calls && w1.answers == w.answers && w' == At(w1, id, phase)
  }

  ghost predicate Replied(w: World, id: nat, w': World) {
    exists outcome :: id in w.calls && w' == Reply(w, id, outcome)
  }

  lemma NextMovesOrReplies(s: Scheme, minRefresh: int, w: World, id: nat)
    requires Enabled(w, Advance(id))
    ensures var w' := Next(s, minRefresh, w, id); Moved(w, id, w') || Replied(w, id, w')
  {
    hide Published, At, Reply;
    var w', p := Next(s, minRefresh, w, id), w.calls[id].phase;
    if w' == At(w, id, Wait(false)) || w' == At(w, id, Wait(true)) {
      assert Moved(w, id, w');
    }
    match p
    case Begin => assert w' == At(w, id, Judge(w.cache));
    case Wait(again) => assert w' == At(w.(holder := Some(id)), id, Locked(again));
    case Locked(again) => assert w' == At(w, id, Recheck(again, w.cache));
    case Recheck(again, _) =>
      assert w' == At(w, id, Unlock(again, w.now)) || w' == At(w, id, Fetching(again, w.now));
    case Fetched(again, _, published, keys) =>
      assert w' == At(Commit(w, published, keys), id, Unlock(again, w.now));
    case Unlock(again, freshAt) => assert w' == At(w.(holder := None), id, Resnap(again, freshAt));
    case Judge(snap) =>
      assert w' == At(w, id, Wait(false)) || w' == At(w, id, Missing(snap))
          || (LookUp(snap, w.calls[id].kid).Some?
              && w' == Reply(w, id, Found(LookUp(snap, w.calls[id].kid).value, snap.value.number, w.now)));
    case Missing(_) => assert w' == Reply(w, id, NotFound) || w' == At(w, id, Wait(true));
    case Fetching(again, since) =>
      assert w' == At(w, id, Fetched(again, since, |w.versions|, Published(s, w.versions)));
    case Resnap(again, freshAt) =>
      var found := LookUp(w.cache, w.calls[id].kid);
      assert w' == Reply(w, id, NotFound) || w' == At(w, id, Missing(w.cache))
          || (found.Some? && w.cache.Some? && w' == Reply(w, id, Found(found.value, w.cache.value.number, freshAt)));
  }

  /** A step other than an arrival leaves every lookup its own kid and start, in progress or answered. */
  lemma StepKeepsLookups(s: Scheme, minRefresh: int, w: World, x: Step)
    requires Enabled(w, x) && !x.Arrive?
    ensures CallsKept(w, Apply(s, minRefresh, w, x)) && AnswersKept(w, Apply(s, minRefresh, w, x))
  {
    hide Next, At, Reply, CallsKept, AnswersKept;
    match x
    case Elapse(_) => NothingChanges(w, Apply(s, minRefresh, w, x));
    case Rotate(_) => NothingChanges(w, Apply(s, minRefresh, w, x));
    case Fail(id) => ReplyKeeps(w, w.(holder := None), id, Unavailable);
    case Advance(id) =>
      var w' := Next(s, minRefresh, w, id);
      NextMovesOrReplies(s, minRefresh, w, id);
      if Moved(w, id, w') {
        var w1: World, phase :|
          id in w1.calls && w1.calls == w.calls && w1.answers == w.answers && w' == At(w1, id, phase);
        MoveKeeps(w, w1, id, phase);
      } else {
        var outcome :| id in w.calls && w' == Reply(w, id, outcome);
        ReplyKeeps(w, w, id, outcome);
      }
  }

  lemma NothingChanges(w: World, w': World)
    requires w'.calls == w.calls && w'.answers == w.answers
    ensures CallsKept(w, w') && AnswersKept(w, w')
  {
  }

  lemma StepIsExplained(s: Scheme, minRefresh: int, first: World, steps: seq<Step>, x: Step)
    requires Run(s, minRefresh, first, steps).Some?
    requires var w := Run(s, minRefresh, first, steps).value; Explained(s, minRefresh, first, steps, w) && Enabled(w, x)
    ensures var w := Run(s, minRefresh, first, steps).value;
            Explained(s, minRefresh, first, steps + [x], Apply(s, minRefresh, w, x))
  {
    hide Run, Began, Next;
    var w := Run(s, minRefresh, first, steps).value;
    var w' := Apply(s, minRefresh, w, x);
    forall id | id in w.calls ensures Began(s, minRefresh, first, steps + [x], id, w.calls[id].kid, w.calls[id].start) {
      BeganGrows(s, minRefresh, first, steps, x, id, w.calls[id].kid, w.calls[id].start);
    }
    forall i | 0 <= i < |w.answers|
      ensures Began(s, minRefresh, first, steps + [x], w.answers[i].id, w.answers[i].kid, w.answers[i].start)
    {
      BeganGrows(s, minRefresh, first, steps, x, w.answers[i].id, w.answers[i].kid, w.answers[i].start);
    }
    if x.Arrive? {
      ArrivalBegins(s, minRefresh, first, steps, x.id, x.kid, w'.calls[x.id].start);
    } else {
      StepKeepsLookups(s, minRefresh, w, x);
    }
  }

  lemma ArrivalBegins(s: Scheme, minRefresh: int, first: World, steps: seq<Step>, id: nat, kid: string, start: Start)
    requires Run(s, minRefresh, first, steps).Some?
    requires var w := Run(s, minRefresh, first, steps).value;
             start == Start(w.now, |w.fetches|, |w.versions|, w.holder.None?)
    ensures Began(s, minRefresh, first, steps + [Arrive(id, kid)], id, kid, start)
  {
    hide Run;
    assert (steps + [Arrive(id, kid)])[..|steps|] == steps;
    assert BeganAt(s, minRefresh, first, steps + [Arrive(id, kid)], |steps|, id, kid, start);
  }

  lemma {:induction false} RunIsExplained(s: Scheme, minRefresh: int, first: World, steps: seq<Step>)
    requires Initial(first) && Run(s, minRefresh, first, steps).Some?
    ensures Explained(s, minRefresh, first, steps, Run(s, minRefresh, first, steps).value)
  {
    hide Began, Apply, Enabled;
    if steps != [] {
      var n := |steps| - 1;
      RunIsExplained(s, minRefresh, first, steps[..n]);
      StepIsExplained(s, minRefresh, first, steps[..n], steps[n]);
      assert steps == steps[..n] + [steps[n]];
    }
  }

  /**
   In every run, each answer is to a lookup that arrived for that kid, and its `start` is how things stood then:
   so the guarantees on answers are about what callers asked.
   */
  lemma AnswersBelongToLookups(s: Scheme, minRefresh: int, first: World, steps: seq<Step>, i: nat)
    requires Initial(first) && Run(s, minRefresh, first, steps).Some?
    requires i < |Run(s, minRefresh, first, steps).value.answers|
    ensures var a := Run(s, minRefresh, first, steps).value.answers[i];
            exists k: nat :: BeganAt(s, minRefresh, first, steps, k, a.id, a.kid, a.start)
  {
    hide Run, BeganAt;
    RunIsExplained(s, minRefresh, first, steps);
    var a := Run(s, minRefresh, first, steps).value.answers[i];
    assert Began(s, minRefresh, first, steps, a.id, a.kid, a.start);
  }

  // ---------- lookups that need no fetch ----------

  lemma OneMoreStep(s: Scheme, minRefresh: int, first: World, steps: seq<Step>, w: World, x: Step)
    requires Run(s, minRefresh, first, steps) == Some(w) && Enabled(w, x)
    ensures Run(s, minRefresh, first, steps + [x]) == Some(Apply(s, minRefresh, w, x))
  {
    hide Enabled, Apply;
    assert (steps + [x])[..|steps|] == steps;
  }

  /** A key that the cache has held for at most five minutes is handed out without asking the issuer. */
  lemma HitNeedsNoFetch(s: Scheme, minRefresh: int, first: World, steps: seq<Step>, w: World, id: nat)
    requires Run(s, minRefresh, first, steps) == Some(w) && id in w.calls && w.calls[id].phase.Begin?
    requires w.cache.Some? && w.calls[id].kid in w.cache.value.keys
    requires w.now - w.cache.value.fetchedAt <= 300_000_000_000
    ensures var r := Run(s, minRefresh, first, steps + [Advance(id)] + [Advance(id)]);
            && r.Some? && r.value.fetches == w.fetches && |r.value.answers| == |w.answers| + 1
            && var a := r.value.answers[|w.answers|];
            && a.id == id && a.kid == w.calls[id].kid
            && a.outcome == Found(w.cache.value.keys[a.kid], w.cache.value.number, w.now)
  {
    hide Run;
    OneMoreStep(s, minRefresh, first, steps, w, Advance(id));
    OneMoreStep(s, minRefresh, first, steps + [Advance(id)], Apply(s, minRefresh, w, Advance(id)), Advance(id));
  }

  /** An unknown kid does not reach the issuer while the last fetch is younger than the throttle. */
  lemma MissIsThrottled(s: Scheme, minRefresh: int, first: World, steps: seq<Step>, w: World, id: nat)
    requires Run(s, minRefresh, first, steps) == Some(w) && id in w.calls && w.calls[id].phase.Begin?
    requires w.cache.Some? && w.calls[id].kid !in w.cache.value.keys
    requires w.now - w.cache.value.fetchedAt <= 300_000_000_000 && w.now - w.cache.value.fetchedAt < minRefresh
    ensures var r := Run(s, minRefresh, first, steps + [Advance(id)] + [Advance(id)] + [Advance(id)]);
            && r.Some? && r.value.fetches == w.fetches && |r.value.answers| == |w.answers| + 1
            && r.value.answers[|w.answers|] == Answer(id, w.calls[id].kid, w.calls[id].start, NotFound)
  {
    hide Run;
    var t := steps + [Advance(id)];
    var u := Apply(s, minRefresh, w, Advance(id));
    OneMoreStep(s, minRefresh, first, steps, w, Advance(id));
    OneMoreStep(s, minRefresh, first, t, u, Advance(id));
    OneMoreStep(s, minRefresh, first, t + [Advance(id)], Apply(s, minRefresh, u, Advance(id)), Advance(id));
  }

  // ---------- the first lookup fetches ----------

  /** The steps of one lookup that nothing disturbs, from its arrival to its answer. */
  function ColdSteps(kid: string): seq<Step> {
    [Arrive(0, kid)] + [Advance(0)] + [Advance(0)] + [Advance(0)] + [Advance(0)] + [Advance(0)] + [Advance(0)]
    + [Advance(0)] + [Advance(0)] + [Advance(0)]
  }

  /** With an empty cache a lookup for a published kid fetches the key set and finds its key. */
  lemma ColdLookupFetches(s: Scheme, minRefresh: int, first: World, kid: string)
    requires Initial(first) && first.versions != [] && kid in Published(s, first.versions)
    ensures var r := Run(s, minRefresh, first, ColdSteps(kid));
            && r.Some? && |r.value.fetches| == 1 && |r.value.answers| == 1
            && r.value.answers[0].kid == kid
            && r.value.answers[0].outcome == Found(Published(s, first.versions)[kid], 0, first.now)
  {
    hide Run, Published;
    var t, w := ColdFetch(s, minRefresh, first, kid);
    // The fetched set is committed, the lock given back, and the new snapshot has the key.
    OneMoreStep(s, minRefresh, first, t, w, Advance(0));
    t, w := t + [Advance(0)], Apply(s, minRefresh, w, Advance(0));
    OneMoreStep(s, minRefresh, first, t, w, Advance(0));
    t, w := t + [Advance(0)], Apply(s, minRefresh, w, Advance(0));
    OneMoreStep(s, minRefresh, first, t, w, Advance(0));
    assert t + [Advance(0)] == ColdSteps(kid);
  }

  /** The part up to the issuer's answer. */
  lemma ColdFetch(s: Scheme, minRefresh: int, first: World, kid: string) returns (t: seq<Step>, w: World)
    requires Initial(first) && first.versions != []
    ensures t == [Arrive(0, kid)] + [Advance(0)] + [Advance(0)] + [Advance(0)] + [Advance(0)] + [Advance(0)]
                 + [Advance(0)]
    ensures Run(s, minRefresh, first, t) == Some(w)
    ensures var start := Start(first.now, 0, |first.versions|, true);
            var phase := Fetched(false, first.now, |first.versions|, Published(s, first.versions));
            w == first.(holder := Some(0), calls := map[0 := Call(kid, start, phase)])
  {
    hide Run, Published;
    StartsAtFirst(s, minRefresh, first);
    OneMoreStep(s, minRefresh, first, [], first, Arrive(0, kid));
    assert [] + [Arrive(0, kid)] == [Arrive(0, kid)];
    t, w := [Arrive(0, kid)], Apply(s, minRefresh, first, Arrive(0, kid));
    OneMoreStep(s, minRefresh, first, t, w, Advance(0));
    t, w := t + [Advance(0)], Apply(s, minRefresh, w, Advance(0));
    OneMoreStep(s, minRefresh, first, t, w, Advance(0));
    t, w := t + [Advance(0)], Apply(s, minRefresh, w, Advance(0));
    OneMoreStep(s, minRefresh, first, t, w, Advance(0));
    t, w := t + [Advance(0)], Apply(s, minRefresh, w, Advance(0));
    OneMoreStep(s, minRefresh, first, t, w, Advance(0));
    t, w := t + [Advance(0)], Apply(s, minRefresh, w, Advance(0));
    OneMoreStep(s, minRefresh, first, t, w, Advance(0));
    t, w := t + [Advance(0)], Apply(s, minRefresh, w, Advance(0));
    OneMoreStep(s, minRefresh, first, t, w, Advance(0));
    t, w := t + [Advance(0)], Apply(s, minRefresh, w, Advance(0));
  }

  lemma StartsAtFirst(s: Scheme, minRefresh: int, first: World)
    ensures Run(s, minRefresh, first, []) == Some(first)
  {
  }
}
