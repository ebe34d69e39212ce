/**
 Versioned signing keys of the KMS plugin under concurrent requests.

 Every backend call (metadata read or write, Transit create, rotate, read, sign) is one atomic step;
 requests interleave freely, fail at any point, and may lose the answer to a call that took effect.
 The backend keeps an append-only list of versions for each key.
 */
module KeyVersions {
  import opened Outcomes
  import opened Words
  import Signatures

  /** The backend answers a sign call with text. */
  type Scheme = Signatures.Scheme<string>

  // ---------- stored data ----------

  /** A metadata record lives at a tenant namespace and a canonical key id. */
  datatype Path = Path(namespace: string, alias: string)

  datatype Record = Record(clientId: string, providerKey: string, transitKey: string, signing: bool,
                           primaryVersion: nat)

  /** `backendKey`. */
  function BackendKey(r: Record): string {
    if r.providerKey != "" then r.providerKey else r.transitKey
  }

  /** `normalize`. */
  function Normalized(r: Record): Record {
    if r.providerKey == "" then r.(providerKey := r.transitKey) else r
  }

  /** `scopedBackendKey`. */
  function ScopedKey(p: Path): string {
    p.namespace + "_" + p.alias
  }

  /** A Transit key: secrets of versions 1, 2, ... */
  datatype TransitKey = TransitKey(signing: bool, versions: seq<string>)

  datatype KeyInfo = KeyInfo(latestVersion: nat, publicKey: string, keys: map<nat, string>)

  /** A read may leave public keys out but never invents or moves one. */
  ghost predicate Faithful(s: Scheme, k: TransitKey, info: KeyInfo) {
    && info.latestVersion == |k.versions| < TWO_32
    && (info.publicKey != "" ==> k.versions != [] && info.publicKey == s.public(k.versions[|k.versions| - 1]))
    && (forall v :: v in info.keys && info.keys[v] != "" ==>
      1 <= v <= |k.versions| && info.keys[v] == s.public(k.versions[v - 1]))
  }

  /** `publicKeyForVersion`. */
  function PublicKeyForVersion(info: KeyInfo, version: nat): string {
    if version == 0 then ""
    else if version == info.latestVersion && info.publicKey != "" then info.publicKey
    else if version in info.keys then info.keys[version]
    else ""
  }

  // ---------- requests in progress ----------

  datatype Request =
    | CreateLookup(clientId: string, path: Path, signing: bool)
    | CreatePost(clientId: string, path: Path, signing: bool)
    | CreateRead(clientId: string, path: Path, signing: bool)
    | CreatePut(path: Path, record: Record)
    | RotateLookup(clientId: string, path: Path)
    | RotatePost(path: Path, record: Record)
    | RotateRead(path: Path, record: Record)
    | RotatePut(path: Path, record: Record)
    | SignLookup(clientId: string, path: Path, message: string)
    | SignCall(path: Path, record: Record, message: string)
    | PublicLookup(clientId: string, path: Path, version: nat)
    | PublicRead(path: Path, record: Record, version: nat)

  predicate IsNew(r: Request) {
    r.CreateLookup? || r.RotateLookup? || r.SignLookup? || r.PublicLookup?
  }

  datatype Signed = Signed(id: nat, path: Path, version: nat, message: string, signature: string)
  datatype Published = Published(id: nat, path: Path, version: nat, publicKey: string)

  datatype World = World(
    store: map<Path, Record>,
    backend: map<string, TransitKey>,
    requests: map<nat, Request>,
    signed: seq<Signed>,
    published: seq<Published>)

  const EMPTY: World := World(map[], map[], map[], [], [])

  /** `getMetadata`: the record, unless it is missing or names another owner. */
  predicate CanLoad(w: World, clientId: string, path: Path) {
    path in w.store && (w.store[path].clientId == "" || w.store[path].clientId == clientId)
  }

  /** What the backend chooses: the secret of a new version and what a read shows. */
  datatype Choice = Choice(secret: string, info: KeyInfo)

  /** The outcome of one atomic call: the new world and the rest of the request, if it goes on. */
  datatype Progress = Progress(world: World, next: Option<Request>)

  /** Whether the next call of `r` can succeed. */
  ghost predicate CanAdvance(s: Scheme, w: World, r: Request, c: Choice) {
    match r
    case CreateLookup(_, path, _) => path !in w.store
    case CreatePost(_, _, _) => true
    case CreateRead(_, path, _) => ScopedKey(path) in w.backend && Faithful(s, w.backend[ScopedKey(path)], c.info)
    case CreatePut(_, _) => true
    case RotateLookup(clientId, path) => CanLoad(w, clientId, path)
    case RotatePost(_, record) => BackendKey(record) in w.backend
    case RotateRead(_, record) => BackendKey(record) in w.backend && Faithful(s, w.backend[BackendKey(record)], c.info)
    case RotatePut(_, _) => true
    case SignLookup(clientId, path, _) => CanLoad(w, clientId, path) && w.store[path].signing
    case SignCall(_, record, _) =>
      && BackendKey(record) in w.backend
      && var k := w.backend[BackendKey(record)]; k.signing && k.versions != [] && record.primaryVersion <= |k.versions|
    case PublicLookup(clientId, path, _) => CanLoad(w, clientId, path) && w.store[path].signing
    case PublicRead(_, record, version) =>
      && BackendKey(record) in w.backend && Faithful(s, w.backend[BackendKey(record)], c.info)
      && PublicKeyForVersion(c.info, if version == 0 then record.primaryVersion else version) != ""
  }

  /** The next call of `r`, the request `id`, successful. */
  function Advance(s: Scheme, w: World, id: nat, r: Request, c: Choice): Progress
    requires CanAdvance(s, w, r, c)
  {
    match r
    case CreateLookup(clientId, path, signing) => Progress(w, Some(CreatePost(clientId, path, signing)))
    case CreatePost(clientId, path, signing) =>
      var name := ScopedKey(path);
      Progress(if name in w.backend then w else w.(backend := w.backend[name := TransitKey(signing, [c.secret])]),
               Some(CreateRead(clientId, path, signing)))
    case CreateRead(clientId, path, signing) =>
      var record := Record(clientId, ScopedKey(path), "", signing, c.info.latestVersion);
      Progress(w, Some(CreatePut(path, Normalized(record))))
    case CreatePut(path, record) => Progress(w.(store := w.store[path := record]), None)
    case RotateLookup(clientId, path) => Progress(w, Some(RotatePost(path, Normalized(w.store[path]))))
    case RotatePost(path, record) =>
      var k := w.backend[BackendKey(record)];
      Progress(w.(backend := w.backend[BackendKey(record) := k.(versions := k.versions + [c.secret])]),
               Some(RotateRead(path, record)))
    case RotateRead(path, record) =>
      Progress(w, Some(RotatePut(path, Normalized(record.(primaryVersion := c.info.latestVersion)))))
    case RotatePut(path, record) => Progress(w.(store := w.store[path := record]), None)
    case SignLookup(_, path, message) => Progress(w, Some(SignCall(path, Normalized(w.store[path]), message)))
    case SignCall(path, record, message) =>
      // `sign` pins the version unless it is 0, in which case the backend uses its latest.
      var k := w.backend[BackendKey(record)];
      var used := if record.primaryVersion != 0 then record.primaryVersion else |k.versions|;
      var signature := s.sign(k.versions[used - 1], message);
      Progress(w.(signed := w.signed + [Signed(id, path, record.primaryVersion, message, signature)]), None)
    case PublicLookup(_, path, version) => Progress(w, Some(PublicRead(path, Normalized(w.store[path]), version)))
    case PublicRead(path, record, version) =>
      var v := if version == 0 then record.primaryVersion else version;
      Progress(w.(published := w.published + [Published(id, path, v, PublicKeyForVersion(c.info, v))]), None)
  }

  datatype Step =
    | Arrive(id: nat, request: Request)
    | Succeed(id: nat, choice: Choice)
    | Abandon(id: nat)
    | LoseAnswer(id: nat, choice: Choice)

  ghost predicate Enabled(s: Scheme, w: World, step: Step) {
    match step
    case Arrive(id, request) => id !in w.requests && IsNew(request)
    case Succeed(id, choice) => id in w.requests && CanAdvance(s, w, w.requests[id], choice)
    case Abandon(id) => id in w.requests
    case LoseAnswer(id, choice) => id in w.requests && CanAdvance(s, w, w.requests[id], choice)
  }

  function Apply(s: Scheme, w: World, step: Step): World
    requires Enabled(s, w, step)
  {
    match step
    case Arrive(id, request) => w.(requests := w.requests[id := request])
    case Succeed(id, choice) =>
      var p := Advance(s, w, id, w.requests[id], choice);
      p.world.(requests := if p.next.Some? then w.requests[id := p.next.value] else w.requests - {id})
    case Abandon(id) => w.(requests := w.requests - {id})
    case LoseAnswer(id, choice) =>
      // The call took effect, but the request ends without an answer.
      var p := Advance(s, w, id, w.requests[id], choice);
      p.world.(requests := w.requests - {id}, signed := w.signed, published := w.published)
  }

  ghost function Run(s: Scheme, steps: seq<Step>): Option<World> {
    if steps == [] then Some(EMPTY)
    else
      match Run(s, steps[..|steps| - 1])
      case None => None
      case Some(w) =>
        if Enabled(s, w, steps[|steps| - 1]) then Some(Apply(s, w, steps[|steps| - 1])) else None
  }

  // ---------- the invariant ----------

  type Backend = map<string, TransitKey>

  ghost predicate KeyExists(b: Backend, path: Path) {
    ScopedKey(path) in b && b[ScopedKey(path)].versions != []
  }

  /** The record at `path` belongs to the path's own backend key and names one of its versions. */
  ghost predicate RecordOk(b: Backend, path: Path, r: Record) {
    && KeyExists(b, path) && BackendKey(r) == ScopedKey(path)
    && 1 <= r.primaryVersion <= |b[ScopedKey(path)].versions|
  }

  ghost predicate RequestOk(b: Backend, r: Request) {
    match r
    case CreateLookup(_, _, _) => true
    case CreatePost(_, _, _) => true
    case CreateRead(_, path, _) => KeyExists(b, path)
    case CreatePut(path, record) => RecordOk(b, path, record)
    case RotateLookup(_, _) => true
    case RotatePost(path, record) => RecordOk(b, path, record)
    case RotateRead(path, record) => RecordOk(b, path, record)
    case RotatePut(path, record) => RecordOk(b, path, record)
    case SignLookup(_, _, _) => true
    case SignCall(path, record, _) => RecordOk(b, path, record)
    case PublicLookup(_, _, _) => true
    case PublicRead(path, record, _) => RecordOk(b, path, record)
  }

  ghost predicate SignedOk(s: Scheme, b: Backend, x: Signed) {
    && KeyExists(b, x.path) && 1 <= x.version <= |b[ScopedKey(x.path)].versions|
    && x.signature == s.sign(b[ScopedKey(x.path)].versions[x.version - 1], x.message)
  }

  ghost predicate PublishedOk(s: Scheme, b: Backend, x: Published) {
    && KeyExists(b, x.path) && 1 <= x.version <= |b[ScopedKey(x.path)].versions|
    && x.publicKey == s.public(b[ScopedKey(x.path)].versions[x.version - 1])
  }

  ghost predicate StoreOk(b: Backend, store: map<Path, Record>) {
    forall path :: path in store ==> RecordOk(b, path, store[path])
  }

  ghost predicate RequestsOk(b: Backend, requests: map<nat, Request>) {
    forall id :: id in requests ==> RequestOk(b, requests[id])
  }

  ghost predicate AnswersOk(s: Scheme, b: Backend, signed: seq<Signed>, published: seq<Published>) {
    && (forall i :: 0 <= i < |signed| ==> SignedOk(s, b, signed[i]))
    && (forall i :: 0 <= i < |published| ==> PublishedOk(s, b, published[i]))
  }

  ghost predicate BackendOk(b: Backend) {
    forall name :: name in b ==> b[name].versions != []
  }

  ghost predicate Inv(s: Scheme, w: World) {
    && BackendOk(w.backend)
    && StoreOk(w.backend, w.store)
    && RequestsOk(w.backend, w.requests)
    && AnswersOk(s, w.backend, w.signed, w.published)
  }

  /** Version histories only grow. */
  ghost predicate BackendGrows(b: Backend, b': Backend) {
    forall name :: name in b ==>
      && name in b' && b[name].versions <= b'[name].versions && b[name].signing == b'[name].signing
  }

  lemma AdvanceGrowsBackend(s: Scheme, w: World, id: nat, r: Request, c: Choice)
    requires CanAdvance(s, w, r, c)
    ensures BackendGrows(w.backend, Advance(s, w, id, r, c).world.backend)
  {
  }

  lemma RecordSurvives(b: Backend, b': Backend, path: Path, r: Record)
    requires BackendGrows(b, b') && RecordOk(b, path, r)
    ensures RecordOk(b', path, r) && RecordOk(b', path, Normalized(r))
  {
    assert ScopedKey(path) in b;
  }

  lemma RequestSurvives(b: Backend, b': Backend, r: Request)
    requires BackendGrows(b, b') && RequestOk(b, r)
    ensures RequestOk(b', r)
  {
    match r
    case CreateRead(_, path, _) => assert ScopedKey(path) in b;
    case CreatePut(path, record) => RecordSurvives(b, b', path, record);
    case RotatePost(path, record) => RecordSurvives(b, b', path, record);
    case RotateRead(path, record) => RecordSurvives(b, b', path, record);
    case RotatePut(path, record) => RecordSurvives(b, b', path, record);
    case SignCall(path, record, _) => RecordSurvives(b, b', path, record);
    case PublicRead(path, record, _) => RecordSurvives(b, b', path, record);
    case _ =>
  }

  lemma EverythingSurvives(s: Scheme, w: World, b': Backend)
    requires Inv(s, w) && BackendGrows(w.backend, b')
    ensures StoreOk(b', w.store) && RequestsOk(b', w.requests) && AnswersOk(s, b', w.signed, w.published)
  {
    hide RecordOk, RequestOk;
    forall path | path in w.store ensures RecordOk(b', path, w.store[path]) {
      RecordSurvives(w.backend, b', path, w.store[path]);
    }
    forall id | id in w.requests ensures RequestOk(b', w.requests[id]) {
      RequestSurvives(w.backend, b', w.requests[id]);
    }
    forall i | 0 <= i < |w.signed| ensures SignedOk(s, b', w.signed[i]) {
      assert SignedOk(s, w.backend, w.signed[i]);
    }
    forall i | 0 <= i < |w.published| ensures PublishedOk(s, b', w.published[i]) {
      assert PublishedOk(s, w.backend, w.published[i]);
    }
  }

  lemma PublicKeyIsOfVersion(s: Scheme, k: TransitKey, info: KeyInfo, v: nat)
    requires Faithful(s, k, info) && PublicKeyForVersion(info, v) != ""
    ensures 1 <= v <= |k.versions| && PublicKeyForVersion(info, v) == s.public(k.versions[v - 1])
  {
  }

  /** And it is found whenever the backend shows it. */
  lemma PublicKeyIsFound(info: KeyInfo, v: nat)
    ensures PublicKeyForVersion(info, v) != "" <==>
              && v >= 1
              && ((v == info.latestVersion && info.publicKey != "") || (v in info.keys && info.keys[v] != ""))
  {
  }

  lemma ScopedKeyIsNotEmpty(p: Path)
    ensures ScopedKey(p) != ""
  {
    assert |ScopedKey(p)| >= 1;
  }

  /** Tenants' namespaces are equally long, so different tenants or aliases have different backend keys. */
  lemma ScopedKeysAreDistinct(p: Path, q: Path)
    requires |p.namespace| == |q.namespace| && ScopedKey(p) == ScopedKey(q)
    ensures p == q
  {
    var n := |p.namespace|;
    assert ScopedKey(p)[..n] == p.namespace && ScopedKey(q)[..n] == q.namespace;
    assert ScopedKey(p)[n + 1..] == p.alias && ScopedKey(q)[n + 1..] == q.alias;
  }

  /** The rest of the request is consistent with the world its call left behind. */
  lemma NextRequestOk(s: Scheme, w: World, id: nat, r: Request, c: Choice)
    requires CanAdvance(s, w, r, c) && Inv(s, w) && RequestOk(w.backend, r)
    ensures var p := Advance(s, w, id, r, c); p.next.Some? ==> RequestOk(p.world.backend, p.next.value)
  {
    var b, b' := w.backend, Advance(s, w, id, r, c).world.backend;
    AdvanceGrowsBackend(s, w, id, r, c);
    match r
    case CreateRead(_, path, _) => ScopedKeyIsNotEmpty(path);
    case RotateLookup(_, path) => RecordSurvives(b, b', path, w.store[path]);
    case SignLookup(_, path, _) => RecordSurvives(b, b', path, w.store[path]);
    case PublicLookup(_, path, _) => RecordSurvives(b, b', path, w.store[path]);
    case RotatePost(path, record) => RecordSurvives(b, b', path, record);
    case RotateRead(path, record) => RecordSurvives(b, b', path, record);
    case _ =>
  }

  /** Whatever the call stored or returned is consistent. */
  lemma AdvanceKeepsOk(s: Scheme, w: World, id: nat, r: Request, c: Choice)
    requires CanAdvance(s, w, r, c) && Inv(s, w) && RequestOk(w.backend, r)
    ensures var w' := Advance(s, w, id, r, c).world;
            BackendOk(w'.backend) && StoreOk(w'.backend, w'.store) && AnswersOk(s, w'.backend, w'.signed, w'.published)
  {
    var w' := Advance(s, w, id, r, c).world;
    AdvanceGrowsBackend(s, w, id, r, c);
    EverythingSurvives(s, w, w'.backend);
    match r
    case PublicRead(path, record, version) =>
      var v := if version == 0 then record.primaryVersion else version;
      PublicKeyIsOfVersion(s, w.backend[BackendKey(record)], c.info, v);
    case _ =>
  }

  lemma StepKeepsInv(s: Scheme, w: World, step: Step)
    requires Inv(s, w) && Enabled(s, w, step)
    ensures Inv(s, Apply(s, w, step)) && BackendGrows(w.backend, Apply(s, w, step).backend)
  {
    hide StoreOk, RecordOk, AnswersOk, BackendOk, Advance, CanAdvance;
    StepGrowsBackend(s, w, step);
    EverythingSurvives(s, w, Apply(s, w, step).backend);
    match step
    case Succeed(id, c) =>
      NextRequestOk(s, w, id, w.requests[id], c);
      AdvanceKeepsOk(s, w, id, w.requests[id], c);
    case LoseAnswer(id, c) =>
      AdvanceKeepsOk(s, w, id, w.requests[id], c);
    case _ =>
  }

  lemma StepGrowsBackend(s: Scheme, w: World, step: Step)
    requires Enabled(s, w, step)
    ensures BackendGrows(w.backend, Apply(s, w, step).backend)
  {
    hide Advance, CanAdvance;
    match step
    case Succeed(id, c) => AdvanceGrowsBackend(s, w, id, w.requests[id], c);
    case LoseAnswer(id, c) => AdvanceGrowsBackend(s, w, id, w.requests[id], c);
    case _ =>
  }

  lemma {:induction false} RunKeepsInv(s: Scheme, steps: seq<Step>)
    ensures Run(s, steps).Some? ==> Inv(s, Run(s, steps).value)
  {
    hide RecordOk, SignedOk, PublishedOk, Apply, Enabled;
    if steps != [] {
      var n := |steps| - 1;
      RunKeepsInv(s, steps[..n]);
      var w := Run(s, steps[..n]);
      if w.Some? && Enabled(s, w.value, steps[n]) {
        StepKeepsInv(s, w.value, steps[n]);
      }
    }
  }

  // ---------- the guarantees ----------

  /**
   In every run the stored primary version is one of the backend's versions, even when rotations overwrite each
   other.
   */
  lemma PrimaryVersionExists(s: Scheme, steps: seq<Step>, path: Path)
    requires Run(s, steps).Some? && path in Run(s, steps).value.store
    ensures var w := Run(s, steps).value;
            && ScopedKey(path) in w.backend
            && 1 <= w.store[path].primaryVersion <= |w.backend[ScopedKey(path)].versions|
  {
    hide Run;
    RunKeepsInv(s, steps);
  }

  /**
   Every signature returned with version v verifies under every public key ever returned for version v of that
   key.
   */
  lemma SignaturesVerify(s: Scheme, steps: seq<Step>, i: nat, j: nat)
    requires Signatures.Correct(s) && Run(s, steps).Some?
    requires i < |Run(s, steps).value.signed| && j < |Run(s, steps).value.published|
    requires var w := Run(s, steps).value;
             w.signed[i].path == w.published[j].path && w.signed[i].version == w.published[j].version
    ensures var w := Run(s, steps).value; s.verify(w.published[j].publicKey, w.signed[i].message, w.signed[i].signature)
  {
    hide Run;
    RunKeepsInv(s, steps);
    var w := Run(s, steps).value;
    assert SignedOk(s, w.backend, w.signed[i]) && PublishedOk(s, w.backend, w.published[j]);
  }
}
