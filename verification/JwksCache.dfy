/**
 The auth plugin's cache of the PAT issuer's key set, under concurrent lookups.

 A lookup is split at every access to shared state: a snapshot, a clock reading, taking or giving back
 the refresh lock, the remote call, the commit. Lookups interleave freely, time passes and the issuer
 rotates its key between any two steps, and a remote call may fail.
 */
module JwksCache {
  import opened Words
  import opened Outcomes
  import opened Base64
  import opened PatTokens
  import Signatures

  // ---------- parsing a key set ----------

  datatype Jwk = Jwk(kty: string, crv: string, kid: string, x: string, y: string)

  predicate Usable(k: Jwk) {
    k.kty == "EC" && k.crv == "P-256" && k.kid != ""
  }

  /** The key of one entry; `point` reads an uncompressed SEC 1 point. */
  function KeyOf(point: Bytes -> Option<string>, k: Jwk): (r: Option<string>) {
    match (Decode(RAW_URL, k.x), Decode(RAW_URL, k.y))
    case (Some(x), Some(y)) => point([4] + x + y)
    case _ => None
  }

  predicate WellFormed(point: Bytes -> Option<string>, k: Jwk) {
    Usable(k) ==> KeyOf(point, k).Some?
  }

  function PairOf(point: Bytes -> Option<string>, k: Jwk): seq<(string, string)> {
    if Usable(k) && KeyOf(point, k).Some? then [(k.kid, KeyOf(point, k).value)] else []
  }

  /** Key id and key of the usable entries, in order. */
  function Pairs(point: Bytes -> Option<string>, jwks: seq<Jwk>): (pairs: seq<(string, string)>) {
    if jwks == [] then [] else Pairs(point, jwks[..|jwks| - 1]) + PairOf(point, jwks[|jwks| - 1])
  }

  predicate AllWellFormed(point: Bytes -> Option<string>, jwks: seq<Jwk>) {
    forall k :: k in jwks ==> WellFormed(point, k)
  }

  predicate NoneUsable(jwks: seq<Jwk>) {
    forall k :: k in jwks ==> !Usable(k)
  }

  lemma PairsOfMore(point: Bytes -> Option<string>, jwks: seq<Jwk>, k: Jwk)
    ensures Pairs(point, jwks + [k]) == Pairs(point, jwks) + PairOf(point, k)
    ensures !Usable(k) ==> Pairs(point, jwks + [k]) == Pairs(point, jwks)
    ensures KeyOf(point, k).Some? && Usable(k) ==>
      KeysById(Pairs(point, jwks + [k])) == KeysById(Pairs(point, jwks))[k.kid := KeyOf(point, k).value]
  {
    hide KeyOf, Usable;
    assert (jwks + [k])[..|jwks|] == jwks;
    var before := Pairs(point, jwks);
    assert (before + PairOf(point, k))[..|before|] == before;
  }

  lemma UsableMeans(k: Jwk)
    ensures Usable(k) <==> k.kty == "EC" && k.crv == "P-256" && k.kid != ""
  {
  }

  lemma NoPairs(point: Bytes -> Option<string>)
    ensures KeysById(Pairs(point, [])) == map[]
  {
  }

  /** `parseJWKS` after the JSON has been read. */
  method ParseJwks(point: Bytes -> Option<string>, jwks: seq<Jwk>) returns (r: Result<map<string, string>>)
    ensures r.Ok? <==> AllWellFormed(point, jwks) && !NoneUsable(jwks)
    ensures r.Ok? ==> r.value == KeysById(Pairs(point, jwks))
  {
    hide KeyOf, Usable, KeysById, Pairs;
    var keys: map<string, string> := map[];
    NoPairs(point);
    for i := 0 to |jwks|
      invariant AllWellFormed(point, jwks[..i])
      invariant keys == KeysById(Pairs(point, jwks[..i]))
      invariant keys == map[] <==> NoneUsable(jwks[..i])
    {
      var k := jwks[i];
      assert jwks[..i + 1] == jwks[..i] + [k];
      PairsOfMore(point, jwks[..i], k);
      UsableMeans(k);
      if k.kty != "EC" || k.crv != "P-256" || k.kid == "" {
        continue;
      }
      var key := KeyOf(point, k);
      if key.None? {
        assert k in jwks && !WellFormed(point, k);
        return Err("JWK does not hold a P-256 point");
      }
      keys := keys[k.kid := key.value];
      assert k.kid in keys;
    }
    assert jwks[..|jwks|] == jwks;
    if |keys| == 0 {
      return Err("JWKS contains no usable EC P-256 keys");
    }
    return Ok(keys);
  }

  /** The coordinates of a key, which `point` puts together again. */
  ghost predicate Coordinates(point: Bytes -> Option<string>, x: string -> Bytes, y: string -> Bytes) {
    forall key :: point([4] + x(key) + y(key)) == Some(key)
  }

  /** The entry that the issuer publishes for a key. */
  function Entry(x: string -> Bytes, y: string -> Bytes, pair: (string, string)): Jwk {
    Jwk("EC", "P-256", pair.0, Encode(RAW_URL, x(pair.1)), Encode(RAW_URL, y(pair.1)))
  }

  function Entries(x: string -> Bytes, y: string -> Bytes, pairs: seq<(string, string)>): (jwks: seq<Jwk>)
    ensures |jwks| == |pairs|
    ensures forall i :: 0 <= i < |pairs| ==> jwks[i] == Entry(x, y, pairs[i])
  {
    if pairs == [] then [] else Entries(x, y, pairs[..|pairs| - 1]) + [Entry(x, y, pairs[|pairs| - 1])]
  }

  lemma EntryIsRead(point: Bytes -> Option<string>, x: string -> Bytes, y: string -> Bytes, pair: (string, string))
    requires Coordinates(point, x, y)
    ensures KeyOf(point, Entry(x, y, pair)) == Some(pair.1)
    ensures Entry(x, y, pair).kid == pair.0 && (pair.0 != "" ==> Usable(Entry(x, y, pair)))
  {
    hide Decode, Encode;
    DecodersAgree(RAW_URL, RAW_URL, x(pair.1));
    DecodersAgree(RAW_URL, RAW_URL, y(pair.1));
  }

  lemma EntriesOfMore(x: string -> Bytes, y: string -> Bytes, pairs: seq<(string, string)>)
    requires pairs != []
    ensures var n := |pairs| - 1;
            Entries(x, y, pairs) == Entries(x, y, pairs[..n]) + [Entry(x, y, pairs[n])]
  {
    hide Entry;
  }

  /** One more entry is read as one more pair. */
  lemma OneMoreIsRead(point: Bytes -> Option<string>, jwks: seq<Jwk>, k: Jwk, pairs: seq<(string, string)>,
                      pair: (string, string))
    requires Pairs(point, jwks) == pairs && Usable(k) && k.kid == pair.0 && KeyOf(point, k) == Some(pair.1)
    ensures Pairs(point, jwks + [k]) == pairs + [pair] && WellFormed(point, k)
  {
    hide KeyOf, Usable, Pairs, KeysById;
    PairsOfMore(point, jwks, k);
  }

  predicate AllUsable(point: Bytes -> Option<string>, jwks: seq<Jwk>) {
    forall k :: k in jwks ==> WellFormed(point, k) && Usable(k)
  }

  /** What the issuer publishes is what the cache reads. */
  lemma {:induction false} PublishedSetIsRead(point: Bytes -> Option<string>, x: string -> Bytes, y: string -> Bytes,
                                              pairs: seq<(string, string)>)
    requires Coordinates(point, x, y)
    requires forall i :: 0 <= i < |pairs| ==> pairs[i].0 != ""
    ensures AllUsable(point, Entries(x, y, pairs))
    ensures Pairs(point, Entries(x, y, pairs)) == pairs
  {
    hide KeyOf, Usable, WellFormed, Entry, Entries, Coordinates, Pairs;
    if pairs == [] {
      NothingIsRead(point, x, y);
    } else {
      var n := |pairs| - 1;
      PublishedSetIsRead(point, x, y, pairs[..n]);
      EntryIsRead(point, x, y, pairs[n]);
      EntriesOfMore(x, y, pairs);
      OneMoreIsRead(point, Entries(x, y, pairs[..n]), Entry(x, y, pairs[n]), pairs[..n], pairs[n]);
      assert pairs == pairs[..n] + [pairs[n]];
    }
  }

  lemma NothingIsRead(point: Bytes -> Option<string>, x: string -> Bytes, y: string -> Bytes)
    ensures AllUsable(point, Entries(x, y, [])) && Pairs(point, Entries(x, y, [])) == []
  {
  }

  // ---------- the machine ----------

  /** `jwksCacheTTL` in nanoseconds. */
  const TTL: int := 300_000_000_000

  /** The cached fields after the fetch with this number: the key set and the time it was stored. */
  datatype Snap = Snap(number: nat, keys: map<string, string>, fetchedAt: int)

  /** Where a lookup stands. `again` tells the second refresh of `key` from the first. */
  datatype Phase =
    | Begin
    | Judge(snap: Option<Snap>)
    | Wait(again: bool)
    | Locked(again: bool)
    | Recheck(again: bool, snap: Option<Snap>)
    | Fetching(again: bool, since: int)
    | Fetched(again: bool, since: int, published: nat, keys: map<string, string>)
    | Unlock(again: bool, freshAt: int)
    | Resnap(again: bool, freshAt: int)
    | Missing(snap: Option<Snap>)

  /** How things stood when a lookup began. */
  datatype Start = Start(at: int, fetches: nat, published: nat, free: bool)

  datatype Call = Call(kid: string, start: Start, phase: Phase)

  datatype Outcome =
    | Found(key: string, number: nat, freshAt: int)
    | NotFound
    | Unavailable

  datatype Answer = Answer(id: nat, kid: string, start: Start, outcome: Outcome)

  /** One successful fetch: how many key versions the issuer had when it answered, and what was stored. */
  datatype Fetch = Fetch(published: nat, snap: Snap)

  datatype World = World(
    now: int,
    versions: Versions,
    cache: Option<Snap>,
    holder: Option<nat>,
    calls: map<nat, Call>,
    fetches: seq<Fetch>,
    answers: seq<Answer>)

  ghost predicate Initial(w: World) {
    w.cache.None? && w.holder.None? && w.calls == map[] && w.fetches == [] && w.answers == []
  }

  /** The key set the issuer publishes when its key has these versions. */
  function Published(s: Scheme, versions: Versions): (keys: map<string, string>) {
    KeysById(Jwks(s, versions))
  }

  function LookUp(snap: Option<Snap>, kid: string): Option<string> {
    if snap.Some? && kid in snap.value.keys then Some(snap.value.keys[kid]) else None
  }

  datatype Step =
    | Elapse(time: nat)
    | Rotate(secret: string)
    | Arrive(id: nat, kid: string)
    | Advance(id: nat)
    | Fail(id: nat)

  ghost predicate Enabled(w: World, step: Step) {
    match step
    case Elapse(_) => true
    case Rotate(_) => true
    case Arrive(id, _) => id !in w.calls
    case Advance(id) =>
      && id in w.calls
      && (w.calls[id].phase.Wait? ==> w.holder.None?)
      && (w.calls[id].phase.Fetching? ==> w.versions != [])
    case Fail(id) => id in w.calls && (w.calls[id].phase.Fetching? || w.calls[id].phase.Fetched?)
  }

  function At(w: World, id: nat, phase: Phase): World
    requires id in w.calls
  {
    w.(calls := w.calls[id := w.calls[id].(phase := phase)])
  }

  function Reply(w: World, id: nat, outcome: Outcome): World
    requires id in w.calls
  {
    w.(calls := w.calls - {id}, answers := w.answers + [Answer(id, w.calls[id].kid, w.calls[id].start, outcome)])
  }

  /** The new cached fields, committed under the data lock. */
  function Commit(w: World, published: nat, keys: map<string, string>): World {
    var snap := Snap(|w.fetches|, keys, w.now);
    w.(cache := Some(snap), fetches := w.fetches + [Fetch(published, snap)])
  }

  /** The next step of a lookup. */
  function Next(s: Scheme, minRefresh: int, w: World, id: nat): World
    requires Enabled(w, Advance(id))
  {
    var kid := w.calls[id].kid;
    match w.calls[id].phase
    case Begin => At(w, id, Judge(w.cache))
    case Judge(snap) =>
      if snap.None? || w.now - snap.value.fetchedAt > TTL then At(w, id, Wait(false))
      else if LookUp(snap, kid).Some? then Reply(w, id, Found(LookUp(snap, kid).value, snap.value.number, w.now))
      else At(w, id, Missing(snap))
    case Missing(snap) =>
      if snap.Some? && w.now - snap.value.fetchedAt < minRefresh then Reply(w, id, NotFound)
      else At(w, id, Wait(true))
    case Wait(again) => At(w.(holder := Some(id)), id, Locked(again))
    case Locked(again) => At(w, id, Recheck(again, w.cache))
    case Recheck(again, snap) =>
      if snap.Some? && w.now - snap.value.fetchedAt < minRefresh then At(w, id, Unlock(again, w.now))
      else At(w, id, Fetching(again, w.now))
    case Fetching(again, since) => At(w, id, Fetched(again, since, |w.versions|, Published(s, w.versions)))
    case Fetched(again, _, published, keys) => At(Commit(w, published, keys), id, Unlock(again, w.now))
    case Unlock(again, freshAt) => At(w.(holder := None), id, Resnap(again, freshAt))
    case Resnap(again, freshAt) =>
      if LookUp(w.cache, kid).Some? then Reply(w, id, Found(LookUp(w.cache, kid).value, w.cache.value.number, freshAt))
      else if again then Reply(w, id, NotFound)
      else At(w, id, Missing(w.cache))
  }

  function Apply(s: Scheme, minRefresh: int, w: World, step: Step): World
    requires Enabled(w, step)
  {
    match step
    case Elapse(time) => w.(now := w.now + time)
    case Rotate(secret) => w.(versions := w.versions + [secret])
    case Arrive(id, kid) =>
      w.(calls := w.calls[id := Call(kid, Start(w.now, |w.fetches|, |w.versions|, w.holder.None?), Begin)])
    case Advance(id) => Next(s, minRefresh, w, id)
    case Fail(id) => Reply(w.(holder := None), id, Unavailable)
  }

  ghost function Run(s: Scheme, minRefresh: int, first: World, steps: seq<Step>): Option<World> {
    if steps == [] then Some(first)
    else
      match Run(s, minRefresh, first, steps[..|steps| - 1])
      case None => None
      case Some(w) =>
        if Enabled(w, steps[|steps| - 1]) then Some(Apply(s, minRefresh, w, steps[|steps| - 1])) else None
  }

  // ---------- the invariant ----------

  /** What the history of successful fetches looks like. */
  ghost predicate FetchOk(s: Scheme, w: World, i: nat)
    requires i < |w.fetches|
  {
    var f := w.fetches[i];
    && f.snap.number == i && f.snap.fetchedAt <= w.now
    && f.published <= |w.versions| && f.snap.keys == Published(s, w.versions[..f.published])
  }

  /** Successive fetches are `minRefresh` apart and never go back to an older key set. */
  ghost predicate Spaced(minRefresh: int, f: Fetch, g: Fetch) {
    g.snap.fetchedAt - f.snap.fetchedAt >= minRefresh && f.published <= g.published
  }

  ghost predicate HistoryOk(s: Scheme, minRefresh: int, w: World) {
    && (forall i :: 0 <= i < |w.fetches| ==> FetchOk(s, w, i))
    && (forall i, j :: 0 <= i && j == i + 1 < |w.fetches| ==> Spaced(minRefresh, w.fetches[i], w.fetches[j]))
    && w.cache == (if w.fetches == [] then None else Some(w.fetches[|w.fetches| - 1].snap))
  }

  predicate Holds(p: Phase) {
    p.Locked? || p.Recheck? || p.Fetching? || p.Fetched? || p.Unlock?
  }

  ghost predicate LockOk(w: World) {
    && (forall id :: id in w.calls && Holds(w.calls[id].phase) ==> w.holder == Some(id))
    && (w.holder.Some? ==> w.holder.value in w.calls && Holds(w.calls[w.holder.value].phase))
  }

  /** No fetch after the lookup's start is served by an older key set than the one published at its start. */
  ghost predicate StartOk(w: World, start: Start) {
    && start.at <= w.now && start.fetches <= |w.fetches| && start.published <= |w.versions|
    && (start.free ==> forall i :: start.fetches <= i < |w.fetches| ==> start.published <= w.fetches[i].published)
    && (start.free ==> forall id :: id in w.calls && w.calls[id].phase.Fetched? ==>
      start.published <= w.calls[id].phase.published)
  }

  /**
   The lookup must find its key: when it began no refresh was under way, the key was published, and the
   cache was empty or at least `minRefresh` old.
   */
  ghost predicate Due(s: Scheme, minRefresh: int, w: World, kid: string, start: Start) {
    && start.free
    && start.published <= |w.versions| && kid in Published(s, w.versions[..start.published])
    && start.fetches <= |w.fetches|
    && (start.fetches == 0 || start.at - w.fetches[start.fetches - 1].snap.fetchedAt >= minRefresh)
  }

  /** A snapshot taken since the lookup began. */
  ghost predicate SnapOk(w: World, start: Start, snap: Option<Snap>) {
    match snap
    case None => start.fetches == 0
    case Some(v) => v.number < |w.fetches| && w.fetches[v.number].snap == v && start.fetches <= v.number + 1
  }

  predicate Fresh(minRefresh: int, freshAt: int, fetchedAt: int) {
    freshAt <= fetchedAt || freshAt - fetchedAt < minRefresh
  }

  ghost predicate MayFetch(minRefresh: int, w: World, since: int) {
    since <= w.now && (w.cache.Some? ==> since - w.cache.value.fetchedAt >= minRefresh)
  }

  ghost predicate PhaseOk(s: Scheme, minRefresh: int, w: World, c: Call) {
    match c.phase
    case Begin => true
    case Judge(snap) => SnapOk(w, c.start, snap)
    case Missing(snap) => SnapOk(w, c.start, snap) && LookUp(snap, c.kid).None?
    case Wait(_) => true
    case Locked(_) => true
    case Recheck(_, snap) => snap == w.cache
    case Fetching(_, since) => MayFetch(minRefresh, w, since) && c.start.at <= since
    case Fetched(_, since, published, keys) =>
      && MayFetch(minRefresh, w, since) && c.start.at <= since
      && published <= |w.versions| && keys == Published(s, w.versions[..published])
      && (w.fetches != [] ==> w.fetches[|w.fetches| - 1].published <= published)
    case Unlock(_, freshAt) => RefreshedOk(s, minRefresh, w, c, freshAt)
    case Resnap(_, freshAt) => RefreshedOk(s, minRefresh, w, c, freshAt)
  }

  ghost predicate RefreshedOk(s: Scheme, minRefresh: int, w: World, c: Call, freshAt: int) {
    && c.start.at <= freshAt <= w.now
    && w.cache.Some? && Fresh(minRefresh, freshAt, w.cache.value.fetchedAt)
    && (Due(s, minRefresh, w, c.kid, c.start) ==> c.start.fetches < |w.fetches|)
  }

  ghost predicate CallsOk(s: Scheme, minRefresh: int, w: World) {
    forall id :: id in w.calls ==> StartOk(w, w.calls[id].start) && PhaseOk(s, minRefresh, w, w.calls[id])
  }

  ghost predicate FoundOk(minRefresh: int, w: World, kid: string, start: Start, o: Outcome)
    requires o.Found?
  {
    && o.number < |w.fetches| && start.fetches <= o.number + 1
    && var snap := w.fetches[o.number].snap;
    && kid in snap.keys && o.key == snap.keys[kid]
    && start.at <= o.freshAt <= w.now
    && (o.freshAt - snap.fetchedAt <= TTL || o.freshAt - snap.fetchedAt < minRefresh)
  }

  ghost predicate AnswerOk(s: Scheme, minRefresh: int, w: World, a: Answer) {
    && (a.outcome.Found? ==> FoundOk(minRefresh, w, a.kid, a.start, a.outcome))
    && (a.outcome.NotFound? ==>
          && a.start.fetches <= |w.fetches| && a.start.published <= |w.versions|
          && !Due(s, minRefresh, w, a.kid, a.start))
  }

  ghost predicate AnswersOk(s: Scheme, minRefresh: int, w: World) {
    forall i :: 0 <= i < |w.answers| ==> AnswerOk(s, minRefresh, w, w.answers[i])
  }

  ghost predicate Inv(s: Scheme, minRefresh: int, w: World) {
    HistoryOk(s, minRefresh, w) && LockOk(w) && CallsOk(s, minRefresh, w) && AnswersOk(s, minRefresh, w)
  }

  // ---------- every step keeps it ----------

  ghost predicate Grows(w: World, w': World) {
    w.now <= w'.now && w.versions <= w'.versions && w.fetches <= w'.fetches
  }

  lemma PrefixOf(v: Versions, v': Versions, n: nat)
    requires v <= v' && n <= |v|
    ensures v[..n] == v'[..n]
  {
  }

  lemma DueIsStable(s: Scheme, minRefresh: int, w: World, w': World, kid: string, start: Start)
    requires Grows(w, w') && start.fetches <= |w.fetches| && start.published <= |w.versions|
    ensures Due(s, minRefresh, w, kid, start) == Due(s, minRefresh, w', kid, start)
  {
    hide Published;
    PrefixOf(w.versions, w'.versions, start.published);
  }

  lemma AnswersSurvive(s: Scheme, minRefresh: int, w: World, w': World)
    requires Grows(w, w') && AnswersOk(s, minRefresh, w) && w'.answers == w.answers
    ensures AnswersOk(s, minRefresh, w')
  {
    hide Due;
    forall i | 0 <= i < |w.answers| ensures AnswerOk(s, minRefresh, w', w.answers[i]) {
      var a := w.answers[i];
      assert AnswerOk(s, minRefresh, w, a);
      if a.outcome.NotFound? {
        DueIsStable(s, minRefresh, w, w', a.kid, a.start);
      }
    }
  }

  /** A key id once published stays published. */
  lemma {:induction false} KidsStayPublished(s: Scheme, versions: Versions, a: nat, b: nat, kid: string)
    requires a <= b <= |versions| && kid in Published(s, versions[..a])
    ensures kid in Published(s, versions[..b])
  {
    if a < b {
      KidsStayPublished(s, versions, a, b - 1, kid);
      var keys := Jwks(s, versions[..b]);
      assert keys[..b - 1] == Jwks(s, versions[..b - 1]);
    }
  }

  /** A due lookup finds its key in every snapshot newer than its start. */
  lemma DueIsFound(s: Scheme, minRefresh: int, w: World, kid: string, start: Start, snap: Option<Snap>)
    requires HistoryOk(s, minRefresh, w) && StartOk(w, start) && Due(s, minRefresh, w, kid, start)
    requires snap.Some? && SnapOk(w, start, snap) && start.fetches <= snap.value.number
    ensures LookUp(snap, kid).Some?
  {
    hide Published;
    assert FetchOk(s, w, snap.value.number);
    KidsStayPublished(s, w.versions, start.published, w.fetches[snap.value.number].published, kid);
  }

  /** Time and rotations change nothing that a lookup relies on. */
  lemma CallsSurvive(s: Scheme, minRefresh: int, w: World, w': World)
    requires CallsOk(s, minRefresh, w) && Grows(w, w')
    requires w'.fetches == w.fetches && w'.cache == w.cache && w'.calls == w.calls
    ensures CallsOk(s, minRefresh, w')
  {
    hide Due, Published;
    forall id | id in w.calls ensures StartOk(w', w.calls[id].start) && PhaseOk(s, minRefresh, w', w.calls[id]) {
      var c := w.calls[id];
      assert StartOk(w, c.start) && PhaseOk(s, minRefresh, w, c);
      DueIsStable(s, minRefresh, w, w', c.kid, c.start);
      if c.phase.Fetched? {
        PrefixOf(w.versions, w'.versions, c.phase.published);
      }
    }
  }

  lemma HistorySurvives(s: Scheme, minRefresh: int, w: World, w': World)
    requires HistoryOk(s, minRefresh, w) && Grows(w, w') && w'.fetches == w.fetches && w'.cache == w.cache
    ensures HistoryOk(s, minRefresh, w')
  {
    hide Published;
    forall i | 0 <= i < |w.fetches| ensures FetchOk(s, w', i) {
      assert FetchOk(s, w, i);
      PrefixOf(w.versions, w'.versions, w.fetches[i].published);
    }
  }

  /** The step of one lookup leaves every other lookup as it was, while the history stays the same. */
  lemma OthersSurvive(s: Scheme, minRefresh: int, w: World, w': World, id: nat)
    requires CallsOk(s, minRefresh, w) && Grows(w, w')
    requires w'.fetches == w.fetches && w'.cache == w.cache && w'.versions == w.versions
    requires forall k :: k in w'.calls && k != id ==> k in w.calls && w'.calls[k] == w.calls[k]
    requires id in w'.calls ==>
      && StartOk(w', w'.calls[id].start) && PhaseOk(s, minRefresh, w', w'.calls[id])
      && (w'.calls[id].phase.Fetched? ==> w'.calls[id].phase.published == |w.versions|)
    ensures CallsOk(s, minRefresh, w')
  {
    hide Due, Published;
    forall k | k in w'.calls && k != id
      ensures StartOk(w', w'.calls[k].start) && PhaseOk(s, minRefresh, w', w'.calls[k]) {
      var c := w.calls[k];
      assert StartOk(w, c.start) && PhaseOk(s, minRefresh, w, c);
      DueIsStable(s, minRefresh, w, w', c.kid, c.start);
    }
  }

  /** Moving one lookup to a consistent phase keeps the invariant. */
  lemma MoveKeepsInv(s: Scheme, minRefresh: int, w: World, id: nat, phase: Phase, holder: Option<nat>)
    requires Inv(s, minRefresh, w) && id in w.calls
    requires var w' := At(w.(holder := holder), id, phase);
             && PhaseOk(s, minRefresh, w', w'.calls[id]) && LockOk(w')
             && (phase.Fetched? ==> phase.published == |w.versions|)
    ensures Inv(s, minRefresh, At(w.(holder := holder), id, phase))
  {
    hide Due, Published, PhaseOk;
    var w' := At(w.(holder := holder), id, phase);
    HistorySurvives(s, minRefresh, w, w');
    AnswersSurvive(s, minRefresh, w, w');
    assert StartOk(w, w.calls[id].start);
    OthersSurvive(s, minRefresh, w, w', id);
  }

  /** Answering a lookup keeps the invariant when the answer is right. */
  lemma ReplyKeepsInv(s: Scheme, minRefresh: int, w: World, id: nat, outcome: Outcome, holder: Option<nat>)
    requires Inv(s, minRefresh, w) && id in w.calls
    requires holder == if Holds(w.calls[id].phase) then None else w.holder
    requires AnswerOk(s, minRefresh, w, Answer(id, w.calls[id].kid, w.calls[id].start, outcome))
    ensures Inv(s, minRefresh, Reply(w.(holder := holder), id, outcome))
  {
    hide Due, Published, PhaseOk;
    var w' := Reply(w.(holder := holder), id, outcome);
    HistorySurvives(s, minRefresh, w, w');
    OthersSurvive(s, minRefresh, w, w', id);
    forall i | 0 <= i < |w'.answers| ensures AnswerOk(s, minRefresh, w', w'.answers[i]) {
      var a := w'.answers[i];
      assert i < |w.answers| ==> a == w.answers[i];
      assert AnswerOk(s, minRefresh, w, a);
      if a.outcome.NotFound? {
        DueIsStable(s, minRefresh, w, w', a.kid, a.start);
      }
    }
  }

  lemma CallFacts(s: Scheme, minRefresh: int, w: World, id: nat)
    requires Inv(s, minRefresh, w) && id in w.calls
    ensures StartOk(w, w.calls[id].start) && PhaseOk(s, minRefresh, w, w.calls[id]) && LockOk(w)
        && HistoryOk(s, minRefresh, w)
    ensures SnapOk(w, w.calls[id].start, w.cache)
    ensures w.cache.Some? ==> w.cache.value.number == |w.fetches| - 1 && w.cache.value.fetchedAt <= w.now
  {
    hide Published, PhaseOk;
    assert StartOk(w, w.calls[id].start);
    assert w.fetches != [] ==> FetchOk(s, w, |w.fetches| - 1);
  }

  /** A snapshot that is younger than `minRefresh` was stored after a due lookup began. */
  lemma YoungIsNew(s: Scheme, minRefresh: int, w: World, kid: string, start: Start, snap: Option<Snap>)
    requires Due(s, minRefresh, w, kid, start) && start.at <= w.now
    requires SnapOk(w, start, snap) && snap.Some? && w.now - snap.value.fetchedAt < minRefresh
    ensures start.fetches <= snap.value.number
  {
  }

  lemma JudgeKeepsInv(s: Scheme, minRefresh: int, w: World, id: nat)
    requires Inv(s, minRefresh, w) && Enabled(w, Advance(id)) && w.calls[id].phase.Judge?
    ensures Inv(s, minRefresh, Next(s, minRefresh, w, id))
  {
    hide Due, Published, Inv, HistoryOk;
    var c := w.calls[id];
    var snap := c.phase.snap;
    CallFacts(s, minRefresh, w, id);
    if snap.None? || w.now - snap.value.fetchedAt > TTL {
      MoveKeepsInv(s, minRefresh, w, id, Wait(false), w.holder);
    } else if LookUp(snap, c.kid).Some? {
      ReplyKeepsInv(s, minRefresh, w, id, Found(LookUp(snap, c.kid).value, snap.value.number, w.now), w.holder);
    } else {
      MoveKeepsInv(s, minRefresh, w, id, Missing(snap), w.holder);
    }
  }

  /** A due lookup is never turned away by the throttle: what it missed in is old. */
  lemma MissingKeepsInv(s: Scheme, minRefresh: int, w: World, id: nat)
    requires Inv(s, minRefresh, w) && Enabled(w, Advance(id)) && w.calls[id].phase.Missing?
    ensures Inv(s, minRefresh, Next(s, minRefresh, w, id))
  {
    hide Due, Published, Inv, HistoryOk;
    var c := w.calls[id];
    var snap := c.phase.snap;
    CallFacts(s, minRefresh, w, id);
    if snap.Some? && w.now - snap.value.fetchedAt < minRefresh {
      if Due(s, minRefresh, w, c.kid, c.start) {
        YoungIsNew(s, minRefresh, w, c.kid, c.start, snap);
        DueIsFound(s, minRefresh, w, c.kid, c.start, snap);
      }
      ReplyKeepsInv(s, minRefresh, w, id, NotFound, w.holder);
    } else {
      MoveKeepsInv(s, minRefresh, w, id, Wait(true), w.holder);
    }
  }

  lemma RecheckKeepsInv(s: Scheme, minRefresh: int, w: World, id: nat)
    requires Inv(s, minRefresh, w) && Enabled(w, Advance(id)) && w.calls[id].phase.Recheck?
    ensures Inv(s, minRefresh, Next(s, minRefresh, w, id))
  {
    hide Due, Published, Inv, HistoryOk;
    var c := w.calls[id];
    var again, snap := c.phase.again, c.phase.snap;
    CallFacts(s, minRefresh, w, id);
    if snap.Some? && w.now - snap.value.fetchedAt < minRefresh {
      var w' := At(w, id, Unlock(again, w.now));
      if Due(s, minRefresh, w, c.kid, c.start) {
        YoungIsNew(s, minRefresh, w, c.kid, c.start, snap);
      }
      DueIsStable(s, minRefresh, w, w', c.kid, c.start);
      MoveKeepsInv(s, minRefresh, w, id, Unlock(again, w.now), w.holder);
    } else {
      MoveKeepsInv(s, minRefresh, w, id, Fetching(again, w.now), w.holder);
    }
  }

  lemma FetchingKeepsInv(s: Scheme, minRefresh: int, w: World, id: nat)
    requires Inv(s, minRefresh, w) && Enabled(w, Advance(id)) && w.calls[id].phase.Fetching?
    ensures Inv(s, minRefresh, Next(s, minRefresh, w, id))
  {
    hide Due, Published, Inv;
    CallFacts(s, minRefresh, w, id);
    assert w.fetches != [] ==> FetchOk(s, w, |w.fetches| - 1);
    var p := w.calls[id].phase;
    assert w.versions[..|w.versions|] == w.versions;
    MoveKeepsInv(s, minRefresh, w, id, Fetched(p.again, p.since, |w.versions|, Published(s, w.versions)), w.holder);
  }

  lemma ResnapKeepsInv(s: Scheme, minRefresh: int, w: World, id: nat)
    requires Inv(s, minRefresh, w) && Enabled(w, Advance(id)) && w.calls[id].phase.Resnap?
    ensures Inv(s, minRefresh, Next(s, minRefresh, w, id))
  {
    hide Due, Published, Inv, HistoryOk;
    var c := w.calls[id];
    CallFacts(s, minRefresh, w, id);
    if LookUp(w.cache, c.kid).Some? {
      ReplyKeepsInv(s, minRefresh, w, id, Found(LookUp(w.cache, c.kid).value, w.cache.value.number, c.phase.freshAt),
        w.holder);
    } else if c.phase.again {
      if Due(s, minRefresh, w, c.kid, c.start) {
        DueIsFound(s, minRefresh, w, c.kid, c.start, w.cache);
      }
      ReplyKeepsInv(s, minRefresh, w, id, NotFound, w.holder);
    } else {
      MoveKeepsInv(s, minRefresh, w, id, Missing(w.cache), w.holder);
    }
  }

  /** The steps that take a snapshot, take the lock or give it back. */
  lemma PlainStepKeepsInv(s: Scheme, minRefresh: int, w: World, id: nat)
    requires Inv(s, minRefresh, w) && Enabled(w, Advance(id))
    requires var p := w.calls[id].phase; p.Begin? || p.Wait? || p.Locked? || p.Unlock?
    ensures Inv(s, minRefresh, Next(s, minRefresh, w, id))
  {
    hide Due, Published, Inv, HistoryOk;
    var c := w.calls[id];
    CallFacts(s, minRefresh, w, id);
    match c.phase
    case Begin => MoveKeepsInv(s, minRefresh, w, id, Judge(w.cache), w.holder);
    case Wait(again) => MoveKeepsInv(s, minRefresh, w, id, Locked(again), Some(id));
    case Locked(again) => MoveKeepsInv(s, minRefresh, w, id, Recheck(again, w.cache), w.holder);
    case Unlock(again, freshAt) =>
      DueIsStable(s, minRefresh, w, At(w.(holder := None), id, Resnap(again, freshAt)), c.kid, c.start);
      MoveKeepsInv(s, minRefresh, w, id, Resnap(again, freshAt), None);
  }

  // ---------- the commit ----------

  lemma CommitKeepsHistory(s: Scheme, minRefresh: int, w: World, id: nat)
    requires Inv(s, minRefresh, w) && id in w.calls && w.calls[id].phase.Fetched?
    ensures HistoryOk(s, minRefresh, Next(s, minRefresh, w, id))
  {
    hide Published;
    var c, w' := w.calls[id], Next(s, minRefresh, w, id);
    assert PhaseOk(s, minRefresh, w, c);
    var n := |w.fetches|;
    forall i | 0 <= i < n + 1 ensures FetchOk(s, w', i) {
      assert i < n ==> FetchOk(s, w, i);
    }
  }

  /** A lookup that does not hold the lock only gains from a commit. */
  lemma CommitServesOthers(s: Scheme, minRefresh: int, w: World, id: nat, k: nat)
    requires Inv(s, minRefresh, w) && id in w.calls && w.calls[id].phase.Fetched?
    requires k in w.calls && k != id
    ensures var w' := Next(s, minRefresh, w, id);
            StartOk(w', w.calls[k].start) && PhaseOk(s, minRefresh, w', w.calls[k])
  {
    hide Published, Due;
    var c, w' := w.calls[k], Next(s, minRefresh, w, id);
    assert StartOk(w, c.start) && PhaseOk(s, minRefresh, w, c);
    assert !Holds(c.phase);
    assert w.fetches != [] ==> FetchOk(s, w, |w.fetches| - 1);
  }

  lemma CommitKeepsInv(s: Scheme, minRefresh: int, w: World, id: nat)
    requires Inv(s, minRefresh, w) && Enabled(w, Advance(id)) && w.calls[id].phase.Fetched?
    ensures Inv(s, minRefresh, Next(s, minRefresh, w, id))
  {
    hide Published, Due, HistoryOk;
    var c, w' := w.calls[id], Next(s, minRefresh, w, id);
    assert StartOk(w, c.start) && PhaseOk(s, minRefresh, w, c);
    CommitKeepsHistory(s, minRefresh, w, id);
    AnswersSurvive(s, minRefresh, w, w');
    forall k | k in w.calls && k != id ensures StartOk(w', w.calls[k].start) && PhaseOk(s, minRefresh, w', w.calls[k]) {
      CommitServesOthers(s, minRefresh, w, id, k);
    }
  }

  // ---------- whole runs ----------

  lemma StepKeepsInv(s: Scheme, minRefresh: int, w: World, step: Step)
    requires Inv(s, minRefresh, w) && Enabled(w, step)
    ensures Inv(s, minRefresh, Apply(s, minRefresh, w, step))
  {
    hide Published, Due, Inv, PhaseOk, Next;
    match step
    case Elapse(_) => EnvironmentKeepsInv(s, minRefresh, w, step);
    case Rotate(_) => EnvironmentKeepsInv(s, minRefresh, w, step);
    case Arrive(_, _) => ArrivalKeepsInv(s, minRefresh, w, step);
    case Fail(id) => ReplyKeepsInv(s, minRefresh, w, id, Unavailable, None);
    case Advance(id) =>
      match w.calls[id].phase
      case Judge(_) => JudgeKeepsInv(s, minRefresh, w, id);
      case Missing(_) => MissingKeepsInv(s, minRefresh, w, id);
      case Recheck(_, _) => RecheckKeepsInv(s, minRefresh, w, id);
      case Fetching(_, _) => FetchingKeepsInv(s, minRefresh, w, id);
      case Fetched(_, _, _, _) => CommitKeepsInv(s, minRefresh, w, id);
      case Resnap(_, _) => ResnapKeepsInv(s, minRefresh, w, id);
      case _ => PlainStepKeepsInv(s, minRefresh, w, id);
  }

  lemma EnvironmentKeepsInv(s: Scheme, minRefresh: int, w: World, step: Step)
    requires Inv(s, minRefresh, w) && (step.Elapse? || step.Rotate?)
    ensures Inv(s, minRefresh, Apply(s, minRefresh, w, step))
  {
    hide Published, Due, PhaseOk;
    var w' := Apply(s, minRefresh, w, step);
    HistorySurvives(s, minRefresh, w, w');
    CallsSurvive(s, minRefresh, w, w');
    AnswersSurvive(s, minRefresh, w, w');
  }

  lemma ArrivalKeepsInv(s: Scheme, minRefresh: int, w: World, step: Step)
    requires Inv(s, minRefresh, w) && step.Arrive? && Enabled(w, step)
    ensures Inv(s, minRefresh, Apply(s, minRefresh, w, step))
  {
    hide Published, Due;
    var w' := Apply(s, minRefresh, w, step);
    HistorySurvives(s, minRefresh, w, w');
    OthersSurvive(s, minRefresh, w, w', step.id);
    AnswersSurvive(s, minRefresh, w, w');
  }

  lemma {:induction false} RunKeepsInv(s: Scheme, minRefresh: int, first: World, steps: seq<Step>)
    requires Initial(first) && Run(s, minRefresh, first, steps).Some?
    ensures Inv(s, minRefresh, Run(s, minRefresh, first, steps).value)
  {
    hide Published, Due, PhaseOk, Apply, Enabled;
    if steps != [] {
      var before := steps[..|steps| - 1];
      RunKeepsInv(s, minRefresh, first, before);
      StepKeepsInv(s, minRefresh, Run(s, minRefresh, first, before).value, steps[|steps| - 1]);
    }
  }

  /** In every run, fetches `i` and `j` are at least `minRefresh` apart for each fetch between them. */
  lemma {:induction false} FetchesAreSpaced(s: Scheme, minRefresh: int, first: World, steps: seq<Step>, i: nat, j: nat)
    requires Initial(first) && Run(s, minRefresh, first, steps).Some?
    requires i <= j < |Run(s, minRefresh, first, steps).value.fetches|
    ensures var f := Run(s, minRefresh, first, steps).value.fetches;
            && f[j].snap.fetchedAt - f[i].snap.fetchedAt >= (j - i) * minRefresh
            && f[i].published <= f[j].published
  {
    hide Run, Published, Due, PhaseOk;
    if i < j {
      RunKeepsInv(s, minRefresh, first, steps);
      FetchesAreSpaced(s, minRefresh, first, steps, i, j - 1);
      var f := Run(s, minRefresh, first, steps).value.fetches;
      assert Spaced(minRefresh, f[j - 1], f[j]);
    }
  }

  /**
   In every run, a key handed out is the one that a successful fetch stored for its kid: the latest fetch at
   some moment of the lookup, holding what the issuer published when it answered, and at most five minutes old
   (or younger than the throttle, which the plugin sets to ten seconds) when it was judged fresh, a moment of
   the lookup itself.
   */
  lemma FoundKeyIsCurrent(s: Scheme, minRefresh: int, first: World, steps: seq<Step>, i: nat)
    requires Initial(first) && Run(s, minRefresh, first, steps).Some?
    requires var w := Run(s, minRefresh, first, steps).value; i < |w.answers| && w.answers[i].outcome.Found?
    ensures var w := Run(s, minRefresh, first, steps).value;
            var a := w.answers[i];
            && a.start.fetches - 1 <= a.outcome.number < |w.fetches|
            && var f := w.fetches[a.outcome.number];
            && f.published <= |w.versions|
            && var published := Published(s, w.versions[..f.published]);
            && a.kid in published && a.outcome.key == published[a.kid]
            && a.start.at <= a.outcome.freshAt <= w.now
            && var age := a.outcome.freshAt - f.snap.fetchedAt;
            && (age <= 300_000_000_000 || age < minRefresh)
            && (minRefresh == 10_000_000_000 ==> age <= 300_000_000_000)
  {
    hide Run, Published, Due, PhaseOk;
    RunKeepsInv(s, minRefresh, first, steps);
    var w := Run(s, minRefresh, first, steps).value;
    assert AnswerOk(s, minRefresh, w, w.answers[i]);
    assert FetchOk(s, w, w.answers[i].outcome.number);
  }

  /**
   In every run, a lookup that began with no refresh under way, for a kid published by then, when the cache
   was empty or at least `minRefresh` old, is never told that the kid is unknown: it gets the key or the
   issuer did not answer.
   */
  lemma DueLookupsFindTheirKey(s: Scheme, minRefresh: int, first: World, steps: seq<Step>, i: nat)
    requires Initial(first) && Run(s, minRefresh, first, steps).Some?
    requires var w := Run(s, minRefresh, first, steps).value;
             i < |w.answers| && Due(s, minRefresh, w, w.answers[i].kid, w.answers[i].start)
    ensures var a := Run(s, minRefresh, first, steps).value.answers[i]; a.outcome.Found? || a.outcome.Unavailable?
  {
    hide Run, Published, Due, PhaseOk;
    RunKeepsInv(s, minRefresh, first, steps);
    var w := Run(s, minRefresh, first, steps).value;
    assert AnswerOk(s, minRefresh, w, w.answers[i]);
  }

  /** Only version numbers are key ids, and each has its own version's key. */
  lemma {:induction false} PublishedIsOfVersion(s: Scheme, versions: Versions, n: nat, v: nat)
    requires n <= |versions| && Itoa(v) in KeysById(Jwks(s, versions)[..n])
    ensures 1 <= v <= n && KeysById(Jwks(s, versions)[..n])[Itoa(v)] == s.public(versions[v - 1])
  {
    hide Itoa;
    var keys := Jwks(s, versions);
    assert n > 0;
    assert keys[..n][..n - 1] == keys[..n - 1];
    if Itoa(v) == Itoa(n) {
      ItoaInjective(v, n);
    } else {
      PublishedIsOfVersion(s, versions, n - 1, v);
    }
  }

  /**
   From minting to verification: however the key is rotated and the cache refreshed, a key that any lookup
   returns for the kid of a minted token verifies that token's signature.
   */
  lemma MintedTokenPassesCache(j: Json, s: Scheme, minRefresh: int, first: World, steps: seq<Step>, i: nat,
                               keyType: string, atRead: Versions, atSign: Versions, e: Encoding, payload: Bytes)
    requires Invertible(j) && Signatures.Correct(s) && atRead <= atSign
    requires Mint(j, s, keyType, atRead, atSign, e, payload).Ok?
    requires Initial(first) && Run(s, minRefresh, first, steps).Some?
    requires var w := Run(s, minRefresh, first, steps).value;
             && (atSign <= w.versions || w.versions <= atSign)
             && i < |w.answers| && w.answers[i].outcome.Found? && w.answers[i].kid == Itoa(|atRead|)
    ensures var t := ParseCompact(j, Mint(j, s, keyType, atRead, atSign, e, payload).value);
            && t.Some? && t.value.header.kid == Itoa(|atRead|)
            && s.verify(Run(s, minRefresh, first, steps).value.answers[i].outcome.key, t.value.signingInput,
              t.value.signature)
  {
    hide Run, Due, Mint, ParseCompact, SigningString, Encode, KeysById, Jwks, Itoa, PhaseOk;
    var w := Run(s, minRefresh, first, steps).value;
    FoundKeyIsCurrent(s, minRefresh, first, steps, i);
    var n := w.fetches[w.answers[i].outcome.number].published;
    var versions, v := w.versions[..n], |atRead|;
    assert Jwks(s, versions)[..n] == Jwks(s, versions);
    PublishedIsOfVersion(s, versions, n, v);
    MintedToken(j, s, keyType, atRead, atSign, e, payload);
    var header := Header("ES256", "JWT", Itoa(v));
    CompactRoundTrip(j, header, payload, s.sign(atSign[v - 1], SigningString(j, header, payload)));
    assert versions[v - 1] == w.versions[v - 1] == atSign[v - 1];
  }
}
