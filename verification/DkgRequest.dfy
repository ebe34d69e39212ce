/** Validation and canonical ordering of a distributed key generation request. */
module DkgRequest {
  import opened Outcomes
  import opened Text
  import opened Permutations

  datatype Member = Member(nodeId: string, partyIndex: int, openbaoUrl: string, mount: string)

  datatype ProtoRequest = ProtoRequest(keyName: string, groupName: string, sessionId: string, threshold: int,
                                       participants: seq<Option<Member>>)

  /** A participant; its client is built from the address and mount. */
  datatype Participant = Participant(nodeId: string, partyIndex: nat, openbaoUrl: string, mount: string)

  datatype Request = Request(keyName: string, groupName: string, sessionId: string, threshold: int,
                             participants: seq<Participant>)

  function Id(m: Option<Member>): string {
    if m.None? then "" else TrimSpace(m.value.nodeId)
  }

  function Index(m: Option<Member>): int {
    if m.None? then -1 else m.value.partyIndex
  }

  function NodeId(p: Participant): string {
    p.nodeId
  }

  function Normalized(m: Option<Member>): (p: Participant) {
    if m.None? || m.value.partyIndex < 0 then Participant("", 0, "", "")
    else Participant(TrimSpace(m.value.nodeId), m.value.partyIndex, TrimSpace(m.value.openbaoUrl),
      TrimSpace(m.value.mount))
  }

  predicate ValidMember(m: Option<Member>, n: nat) {
    m.Some? && Id(m) != "" && TrimSpace(m.value.openbaoUrl) != "" && 0 <= m.value.partyIndex < n
  }

  predicate ValidHeader(r: ProtoRequest) {
    && TrimSpace(r.keyName) != "" && TrimSpace(r.groupName) != "" && TrimSpace(r.sessionId) != ""
    && |r.participants| >= 2 && 2 <= r.threshold <= |r.participants|
  }

  /** Exactly the requests that are accepted. */
  ghost predicate Acceptable(r: ProtoRequest) {
    && ValidHeader(r)
    && (forall i :: 0 <= i < |r.participants| ==> ValidMember(r.participants[i], |r.participants|))
    && Distinct(Map(Id, r.participants))
    && Distinct(Map(Index, r.participants))
  }

  /** The member that claims party index `i`. */
  function Claimant(ms: seq<Option<Member>>, i: nat): (p: Participant) {
    if ms == [] then Normalized(None)
    else if Index(ms[0]) == i then Normalized(ms[0])
    else Claimant(ms[1..], i)
  }

  /** The request with trimmed names and participant `i` at position `i`. */
  function Canonical(r: ProtoRequest): (c: Request)
    ensures |c.participants| == |r.participants|
  {
    Request(TrimSpace(r.keyName), TrimSpace(r.groupName), TrimSpace(r.sessionId), r.threshold,
            seq(|r.participants|, i requires 0 <= i < |r.participants| => Claimant(r.participants, i)))
  }

  /** The participant carries the member's own id, index, address and mount, without spaces around them. */
  predicate IsMemberAt(m: Member, i: nat, p: Participant) {
    && m.partyIndex == i && p.partyIndex == i && p.nodeId == TrimSpace(m.nodeId)
    && p.openbaoUrl == TrimSpace(m.openbaoUrl) && p.mount == TrimSpace(m.mount)
  }

  lemma {:induction false} ClaimantIsMember(ms: seq<Option<Member>>, k: nat)
    requires k < |ms| && Distinct(Map(Index, ms)) && Index(ms[k]) >= 0
    ensures Claimant(ms, Index(ms[k])) == Normalized(ms[k])
  {
    if k > 0 {
      assert Map(Index, ms)[0] != Map(Index, ms)[k];
      forall i, j | 0 <= i < j < |ms[1..]| ensures Map(Index, ms[1..])[i] != Map(Index, ms[1..])[j] {
        assert Map(Index, ms)[i + 1] != Map(Index, ms)[j + 1];
      }
      ClaimantIsMember(ms[1..], k - 1);
    }
  }

  /** `dkgRequestFromProto`. */
  method FromProto(req: Option<ProtoRequest>) returns (r: Result<Request>)
    ensures r.Ok? <==> req.Some? && Acceptable(req.value)
    ensures r.Ok? ==> r.value == Canonical(req.value)
  {
    hide TrimSpace, Claimant;
    if req.None? {
      return Err("request is required");
    }
    var q := req.value;
    if TrimSpace(q.keyName) == "" {
      return Err("key_name is required");
    }
    if TrimSpace(q.groupName) == "" {
      return Err("group_name is required");
    }
    if TrimSpace(q.sessionId) == "" {
      return Err("session_id is required");
    }
    if |q.participants| < 2 {
      return Err("dkg requires at least two participants");
    }
    if q.threshold < 2 || q.threshold > |q.participants| {
      return Err("threshold must be between 2 and participant count");
    }
    var collected := Collect(q.participants);
    if collected.Err? {
      return Err(collected.error);
    }
    var sorted := SortByPartyIndex(collected.value);
    SortedIsCanonical(q, sorted);
    r := Ok(Request(TrimSpace(q.keyName), TrimSpace(q.groupName), TrimSpace(q.sessionId), q.threshold, sorted));
  }

  /** The validation loop, with its two `seen` sets. */
  method Collect(ms: seq<Option<Member>>) returns (r: Result<seq<Participant>>)
    ensures r.Ok? <==> (forall i :: 0 <= i < |ms| ==> ValidMember(ms[i], |ms|))
                       && Distinct(Map(Id, ms)) && Distinct(Map(Index, ms))
    ensures r.Ok? ==> r.value == Map(Normalized, ms)
  {
    hide TrimSpace;
    var seenNodeIds: set<string>, seenPartyIndexes: set<int> := {}, {};
    var participants: seq<Participant> := [];
    for i := 0 to |ms|
      invariant forall k :: 0 <= k < i ==> ValidMember(ms[k], |ms|)
      invariant seenNodeIds == set k | 0 <= k < i :: Id(ms[k])
      invariant seenPartyIndexes == set k | 0 <= k < i :: Index(ms[k])
      invariant Distinct(Map(Id, ms[..i])) && Distinct(Map(Index, ms[..i]))
      invariant participants == Map(Normalized, ms[..i])
    {
      assert ms[..i + 1] == ms[..i] + [ms[i]];
      if ms[i].None? {
        return Err("participant is required");
      }
      var m := ms[i].value;
      var nodeId := TrimSpace(m.nodeId);
      if nodeId == "" {
        return Err("participant node_id is required");
      }
      if TrimSpace(m.openbaoUrl) == "" {
        return Err("participant openbao_url is required");
      }
      if nodeId in seenNodeIds {
        DuplicateFound(Id, ms, i);
        return Err("duplicate participant node_id");
      }
      seenNodeIds := seenNodeIds + {nodeId};
      if m.partyIndex < 0 || m.partyIndex >= |ms| {
        return Err("participant party_index out of range");
      }
      if m.partyIndex in seenPartyIndexes {
        DuplicateFound(Index, ms, i);
        return Err("duplicate participant party_index");
      }
      seenPartyIndexes := seenPartyIndexes + {m.partyIndex};
      participants := participants + [Normalized(ms[i])];
    }
    assert ms[..|ms|] == ms;
    r := Ok(participants);
  }

  lemma DuplicateFound<A, B>(f: A -> B, xs: seq<A>, i: nat)
    requires i < |xs| && exists k :: 0 <= k < i && f(xs[k]) == f(xs[i])
    ensures !Distinct(Map(f, xs))
  {
    var k :| 0 <= k < i && f(xs[k]) == f(xs[i]);
    assert Map(f, xs)[k] == Map(f, xs)[i];
  }

  predicate SortedByIndex(ps: seq<Participant>) {
    forall i, j :: 0 <= i < j < |ps| ==> ps[i].partyIndex <= ps[j].partyIndex
  }

  /** `sort.Slice` by party index. */
  method SortByPartyIndex(ps: seq<Participant>) returns (sorted: seq<Participant>)
    ensures SortedByIndex(sorted) && multiset(sorted) == multiset(ps)
  {
    sorted := [];
    for i := 0 to |ps|
      invariant SortedByIndex(sorted) && multiset(sorted) == multiset(ps[..i])
    {
      assert ps[..i + 1] == ps[..i] + [ps[i]];
      InsertKeepsOrder(sorted, ps[i]);
      InsertAddsElement(sorted, ps[i]);
      sorted := InsertByIndex(sorted, ps[i]);
    }
    assert ps[..|ps|] == ps;
  }

  function InsertByIndex(ps: seq<Participant>, p: Participant): (r: seq<Participant>) {
    if ps == [] || p.partyIndex <= ps[0].partyIndex then [p] + ps
    else [ps[0]] + InsertByIndex(ps[1..], p)
  }

  lemma {:induction false} InsertAddsElement(ps: seq<Participant>, p: Participant)
    ensures multiset(InsertByIndex(ps, p)) == multiset(ps) + multiset{p}
  {
    if ps != [] && p.partyIndex > ps[0].partyIndex {
      InsertAddsElement(ps[1..], p);
      assert ps == [ps[0]] + ps[1..];
    }
  }

  predicate AllAtLeast(ps: seq<Participant>, bound: nat) {
    forall k :: 0 <= k < |ps| ==> bound <= ps[k].partyIndex
  }

  lemma {:induction false} InsertKeepsBound(ps: seq<Participant>, p: Participant, bound: nat)
    requires AllAtLeast(ps, bound) && bound <= p.partyIndex
    ensures AllAtLeast(InsertByIndex(ps, p), bound)
  {
    if ps != [] && p.partyIndex > ps[0].partyIndex {
      InsertKeepsBound(ps[1..], p, bound);
    }
  }

  lemma {:induction false} InsertKeepsOrder(ps: seq<Participant>, p: Participant)
    requires SortedByIndex(ps)
    ensures SortedByIndex(InsertByIndex(ps, p))
  {
    if ps != [] && p.partyIndex > ps[0].partyIndex {
      InsertKeepsOrder(ps[1..], p);
      InsertKeepsBound(ps[1..], p, ps[0].partyIndex);
    }
  }

  lemma SortedIsCanonical(q: ProtoRequest, sorted: seq<Participant>)
    requires Acceptable(q) && SortedByIndex(sorted) && multiset(sorted) == multiset(Map(Normalized, q.participants))
    ensures sorted == Canonical(q).participants
  {
    hide TrimSpace;
    var ms := q.participants;
    SameMembers(sorted, Map(Normalized, ms));
    var indexes := Map((p: Participant) => p.partyIndex, sorted);
    SortedIndexesAreDistinct(ms, sorted);
    forall k | 0 <= k < |indexes| ensures indexes[k] < |indexes| {
      var j := SourceOf(ms, sorted, k);
    }
    IncreasingCountsUp(indexes);
    forall i | 0 <= i < |ms| ensures sorted[i] == Claimant(ms, i) {
      var j := SourceOf(ms, sorted, i);
      assert indexes[i] == i;
      ClaimantIsMember(ms, j);
    }
  }

  /** Each sorted participant comes from a member of the request. */
  lemma SourceOf(ms: seq<Option<Member>>, sorted: seq<Participant>, i: nat) returns (j: nat)
    requires multiset(sorted) == multiset(Map(Normalized, ms)) && i < |sorted|
    requires forall k :: 0 <= k < |ms| ==> ValidMember(ms[k], |ms|)
    ensures j < |ms| && sorted[i] == Normalized(ms[j]) && sorted[i].partyIndex == Index(ms[j]) < |ms|
  {
    hide TrimSpace;
    SameMembers(sorted, Map(Normalized, ms));
    assert sorted[i] in Map(Normalized, ms);
    j :| 0 <= j < |ms| && Map(Normalized, ms)[j] == sorted[i];
  }

  lemma SortedIndexesAreDistinct(ms: seq<Option<Member>>, sorted: seq<Participant>)
    requires multiset(sorted) == multiset(Map(Normalized, ms)) && SortedByIndex(sorted)
    requires forall k :: 0 <= k < |ms| ==> ValidMember(ms[k], |ms|)
    requires Distinct(Map(Index, ms))
    ensures forall i, j :: 0 <= i < j < |sorted| ==> sorted[i].partyIndex < sorted[j].partyIndex
  {
    hide TrimSpace;
    var index := (p: Participant) => p.partyIndex;
    MapUpToOrder(index, sorted, Map(Normalized, ms));
    var ks := Map(index, Map(Normalized, ms));
    forall i, j | 0 <= i < j < |ks| ensures ks[i] != ks[j] {
      assert Map(Index, ms)[i] != Map(Index, ms)[j];
    }
    DistinctUpToOrder(Map(index, sorted), ks);
    forall i, j | 0 <= i < j < |sorted| ensures sorted[i].partyIndex < sorted[j].partyIndex {
      assert Map(index, sorted)[i] != Map(index, sorted)[j];
    }
  }

  /** Party indexes of an accepted request are 0 to n-1, so participant `i` has index `i` after sorting. */
  lemma CanonicalIndexes(q: ProtoRequest, i: nat)
    requires Acceptable(q) && i < |q.participants|
    ensures Canonical(q).participants[i].partyIndex == i
    ensures exists k :: 0 <= k < |q.participants| && Index(q.participants[k]) == i
                        && Canonical(q).participants[i] == Normalized(q.participants[k])
    ensures exists m :: Some(m) in q.participants && IsMemberAt(m, i, Canonical(q).participants[i])
  {
    hide TrimSpace;
    var ms := q.participants;
    var indexes := seq(|ms|, k requires 0 <= k < |ms| => Index(ms[k]) as nat);
    forall a, b | 0 <= a < b < |indexes| ensures indexes[a] != indexes[b] {
      assert Map(Index, ms)[a] != Map(Index, ms)[b];
    }
    Pigeonhole(indexes, i);
    var k :| 0 <= k < |indexes| && indexes[k] == i;
    ClaimantIsMember(ms, k);
    assert Some(ms[k].value) in q.participants && IsMemberAt(ms[k].value, i, Canonical(q).participants[i]);
  }

  lemma CanonicalIdsDistinct(q: ProtoRequest)
    requires Acceptable(q)
    ensures Distinct(Map(NodeId, Canonical(q).participants))
  {
    hide TrimSpace, Claimant, IsMemberAt;
    var ps := Canonical(q).participants;
    forall i, j | 0 <= i < j < |ps| ensures ps[i].nodeId != ps[j].nodeId {
      CanonicalIndexes(q, i);
      CanonicalIndexes(q, j);
      var a :| 0 <= a < |q.participants| && Index(q.participants[a]) == i && ps[i] == Normalized(q.participants[a]);
      var b :| 0 <= b < |q.participants| && Index(q.participants[b]) == j && ps[j] == Normalized(q.participants[b]);
      assert Map(Id, q.participants)[a] != Map(Id, q.participants)[b];
    }
  }

  /** Listing the participants in another order changes neither the verdict nor the accepted request. */
  lemma OrderIsIrrelevant(q: ProtoRequest, ms: seq<Option<Member>>)
    requires multiset(ms) == multiset(q.participants)
    ensures Acceptable(q) <==> Acceptable(q.(participants := ms))
    ensures Acceptable(q) ==> Canonical(q) == Canonical(q.(participants := ms))
  {
    hide TrimSpace, IsMemberAt;
    SameMembers(ms, q.participants);
    MapUpToOrder(Id, ms, q.participants);
    DistinctUpToOrder(Map(Id, ms), Map(Id, q.participants));
    MapUpToOrder(Index, ms, q.participants);
    DistinctUpToOrder(Map(Index, ms), Map(Index, q.participants));
    if forall i :: 0 <= i < |ms| ==> ValidMember(ms[i], |ms|) {
      ValidityUpToOrder(ms, q.participants);
    }
    if Acceptable(q) {
      ValidityUpToOrder(q.participants, ms);
    }
    if Acceptable(q) {
      forall i | 0 <= i < |ms| ensures Claimant(ms, i) == Claimant(q.participants, i) {
        CanonicalIndexes(q, i);
        var k :| 0 <= k < |q.participants| && Index(q.participants[k]) == i
                 && Canonical(q).participants[i] == Normalized(q.participants[k]);
        assert q.participants[k] in ms;
        var j :| 0 <= j < |ms| && ms[j] == q.participants[k];
        ClaimantIsMember(ms, j);
      }
    }
  }

  lemma ValidityUpToOrder(xs: seq<Option<Member>>, ys: seq<Option<Member>>)
    requires multiset(xs) == multiset(ys)
    requires forall i :: 0 <= i < |xs| ==> ValidMember(xs[i], |xs|)
    ensures forall i :: 0 <= i < |ys| ==> ValidMember(ys[i], |ys|)
  {
    SameMembers(xs, ys);
    forall i | 0 <= i < |ys| ensures ValidMember(ys[i], |ys|) {
      assert ys[i] in xs;
    }
  }
}
