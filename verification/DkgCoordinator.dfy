/**
 The threshold key generation coordinator: four rounds in lock step over n nodes.

 Nodes are adversarial: `Network.reply` may answer each call in any way that depends on everything
 that happened before.  The trace records every call ever made, retries included, with its reply.
 */
module DkgCoordinator {
  import opened Outcomes
  import opened Permutations
  import opened DkgRequest

  datatype Status = Status(status: string, round: int, broadcast: string, unicasts: map<string, string>,
                           publicKey: string)

  datatype CallError = Cancelled | DeadlineExceeded | HttpStatus(code: int) | Transport

  /** A client returns a status pointer, which may be nil, or an error. */
  datatype Reply = Replied(status: Option<Status>) | Failed(error: CallError)

  datatype Call =
    | Start(keyName: string, to: Participant, groupName: string, sessionId: string,
            commonSeed: string, pairwiseSeeds: map<string, string>)
    | Deliver(keyName: string, to: Participant, round: int, from: string, broadcast: string, unicast: string)
    | Proceed(keyName: string, to: Participant, round: int)

  datatype Event = Event(call: Call, reply: Reply)

  type Trace = seq<Event>

  /** The environment: how nodes answer, and whether the context ends during a backoff. */
  datatype Network = Network(reply: (Trace, Call) -> Reply, contextDone: Trace -> bool)

  datatype Settings = Settings(retryAttempts: int, retryBackoff: int, sessionSecret: string,
                               mac: (string, string, string, string) -> string)

  datatype Session = Session(req: Request, commonSeed: string, seeds: map<string, map<string, string>>)

  const COMPLETED: string := "dkg_completed"

  ghost predicate DistinctIds(ps: seq<Participant>) {
    Distinct(Map(NodeId, ps))
  }

  // ---------- what a trace must satisfy ----------

  /** Event `e` is the successful call in which node `id` hands over its round-`r` output. */
  predicate Produces(e: Event, r: int, id: string, s: Status) {
    && e.reply == Replied(Some(s)) && e.call.to.nodeId == id
    && (if r == 1 then e.call.Start? else e.call.Proceed? && e.call.round == r)
  }

  ghost predicate HandedOver(tr: Trace, r: int, id: string, s: Status) {
    exists k :: 0 <= k < |tr| && Produces(tr[k], r, id, s)
  }

  /** `outs` are round-`r` outputs of all participants, each handed over somewhere in `tr`. */
  ghost predicate Produced(tr: Trace, ps: seq<Participant>, r: int, outs: map<string, Status>) {
    forall i :: 0 <= i < |ps| ==>
      ps[i].nodeId in outs && HandedOver(tr, r, ps[i].nodeId, outs[ps[i].nodeId])
  }

  /** The message of node `from` for receiver `q`: its broadcast, and in round 2 the unicast meant for `q`. */
  ghost predicate CarriesOutput(call: Call, outs: map<string, Status>) {
    && call.Deliver? && call.from in outs
    && call.broadcast == outs[call.from].broadcast
    && (call.round != 2 ==> call.unicast == "")
    && (call.round == 2 ==> && call.to.nodeId in outs[call.from].unicasts
                            && call.unicast == outs[call.from].unicasts[call.to.nodeId]
                            && call.unicast != "")
  }

  ghost predicate Delivered(tr: Trace, r: int, from: string, q: Participant, outs: map<string, Status>) {
    exists j :: 0 <= j < |tr| && tr[j].reply.Replied? && tr[j].call.Deliver? && tr[j].call.round == r
                && tr[j].call.from == from && tr[j].call.to == q && CarriesOutput(tr[j].call, outs)
  }

  /** Round `r` is complete: every ordered pair of different nodes has had its delivery. */
  ghost predicate RoundDelivered(tr: Trace, ps: seq<Participant>, r: int) {
    exists outs :: Produced(tr, ps, r, outs) && AllDelivered(tr, ps, r, outs, |ps|, 0)
  }

  /** All deliveries to the first `n` receivers, and those of the first `m` senders to the next one. */
  ghost predicate AllDelivered(tr: Trace, ps: seq<Participant>, r: int, outs: map<string, Status>, n: nat, m: nat) {
    forall i, j :: 0 <= i < |ps| && 0 <= j < |ps| && ps[i].nodeId != ps[j].nodeId && (i < n || (i == n && j < m)) ==>
      Delivered(tr, r, ps[j].nodeId, ps[i], outs)
  }

  /** What must have happened before a call may be made. */
  ghost predicate Permitted(s: Session, before: Trace, call: Call) {
    && call.keyName == s.req.keyName && call.to in s.req.participants
    && match call
       case Start(_, to, groupName, sessionId, commonSeed, pairwiseSeeds) =>
         && groupName == s.req.groupName && sessionId == s.req.sessionId && commonSeed == s.commonSeed
         && to.nodeId in s.seeds && pairwiseSeeds == s.seeds[to.nodeId]
       case Deliver(_, to, round, from, _, _) =>
         && 1 <= round <= 3 && from != to.nodeId
         && exists outs :: Produced(before, s.req.participants, round, outs) && CarriesOutput(call, outs)
       case Proceed(_, _, round) =>
         2 <= round <= 4 && RoundDelivered(before, s.req.participants, round - 1)
  }

  /** Lock step: every call of the trace was permitted when it was made, and has the reply that it got. */
  ghost predicate LockStep(net: Network, s: Session, tr: Trace) {
    forall i :: 0 <= i < |tr| ==>
      Permitted(s, tr[..i], tr[i].call) && tr[i].reply == net.reply(tr[..i], tr[i].call)
  }

  /** The round whose output a call asks for; deliveries ask for none. */
  function AskedRound(call: Call): int {
    match call
    case Start(_, _, _, _, _, _) => 1
    case Deliver(_, _, _, _, _, _) => 0
    case Proceed(_, _, round) => round
  }

  ghost predicate AskedUpTo(tr: Trace, r: int) {
    forall k :: 0 <= k < |tr| ==> AskedRound(tr[k].call) <= r
  }

  /** No node hands over two outputs for one round, so "its round-`r` output" is unambiguous. */
  ghost predicate SingleOutputs(tr: Trace) {
    forall k, l :: 0 <= k < l < |tr| && tr[k].reply.Replied? && tr[l].reply.Replied?
                   && AskedRound(tr[k].call) == AskedRound(tr[l].call) >= 1 ==>
      tr[k].call.to.nodeId != tr[l].call.to.nodeId
  }

  /** Two accounts of the round-`r` outputs agree on every participant. */
  lemma OutputsAreUnique(tr: Trace, ps: seq<Participant>, r: int,
                         outs: map<string, Status>, outs': map<string, Status>, i: nat)
    requires r >= 1 && SingleOutputs(tr) && Produced(tr, ps, r, outs) && Produced(tr, ps, r, outs') && i < |ps|
    ensures outs[ps[i].nodeId] == outs'[ps[i].nodeId]
  {
    var id := ps[i].nodeId;
    assert HandedOver(tr, r, id, outs[id]) && HandedOver(tr, r, id, outs'[id]);
    var k :| 0 <= k < |tr| && Produces(tr[k], r, id, outs[id]);
    var l :| 0 <= l < |tr| && Produces(tr[l], r, id, outs'[id]);
    assert AskedRound(tr[k].call) == r && AskedRound(tr[l].call) == r;
  }

  // ---------- the trace only grows ----------

  lemma HandedOverGrows(tr: Trace, tr': Trace, r: int, id: string, s: Status)
    requires tr <= tr' && HandedOver(tr, r, id, s)
    ensures HandedOver(tr', r, id, s)
  {
    var k :| 0 <= k < |tr| && Produces(tr[k], r, id, s);
    assert Produces(tr'[k], r, id, s);
  }

  lemma ProducedGrows(tr: Trace, tr': Trace, ps: seq<Participant>, r: int, outs: map<string, Status>)
    requires tr <= tr' && Produced(tr, ps, r, outs)
    ensures Produced(tr', ps, r, outs)
  {
    forall i | 0 <= i < |ps| ensures HandedOver(tr', r, ps[i].nodeId, outs[ps[i].nodeId]) {
      HandedOverGrows(tr, tr', r, ps[i].nodeId, outs[ps[i].nodeId]);
    }
  }

  lemma DeliveredGrows(tr: Trace, tr': Trace, r: int, from: string, q: Participant, outs: map<string, Status>)
    requires tr <= tr' && Delivered(tr, r, from, q, outs)
    ensures Delivered(tr', r, from, q, outs)
  {
    var j :| 0 <= j < |tr| && tr[j].reply.Replied? && tr[j].call.Deliver? && tr[j].call.round == r
             && tr[j].call.from == from && tr[j].call.to == q && CarriesOutput(tr[j].call, outs);
    assert tr'[j] == tr[j];
  }

  lemma AllDeliveredGrows(tr: Trace, tr': Trace, ps: seq<Participant>, r: int, outs: map<string, Status>, n: nat,
                          m: nat)
    requires tr <= tr' && AllDelivered(tr, ps, r, outs, n, m)
    ensures AllDelivered(tr', ps, r, outs, n, m)
  {
    forall i, j | 0 <= i < |ps| && 0 <= j < |ps| && ps[i].nodeId != ps[j].nodeId && (i < n || (i == n && j < m))
      ensures Delivered(tr', r, ps[j].nodeId, ps[i], outs)
    {
      DeliveredGrows(tr, tr', r, ps[j].nodeId, ps[i], outs);
    }
  }

  lemma RoundDeliveredGrows(tr: Trace, tr': Trace, ps: seq<Participant>, r: int)
    requires tr <= tr' && RoundDelivered(tr, ps, r)
    ensures RoundDelivered(tr', ps, r)
  {
    hide Produced, AllDelivered;
    var outs :| Produced(tr, ps, r, outs) && AllDelivered(tr, ps, r, outs, |ps|, 0);
    ProducedGrows(tr, tr', ps, r, outs);
    AllDeliveredGrows(tr, tr', ps, r, outs, |ps|, 0);
  }

  lemma PermittedGrows(s: Session, tr: Trace, tr': Trace, call: Call)
    requires tr <= tr' && Permitted(s, tr, call)
    ensures Permitted(s, tr', call)
  {
    hide Produced, RoundDelivered, CarriesOutput;
    match call
    case Start(_, _, _, _, _, _) =>
    case Deliver(_, _, round, _, _, _) =>
      var outs :| Produced(tr, s.req.participants, round, outs) && CarriesOutput(call, outs);
      ProducedGrows(tr, tr', s.req.participants, round, outs);
    case Proceed(_, _, round) =>
      RoundDeliveredGrows(tr, tr', s.req.participants, round - 1);
  }

  lemma LockStepExtends(net: Network, s: Session, tr: Trace, e: Event)
    requires LockStep(net, s, tr) && Permitted(s, tr, e.call) && e.reply == net.reply(tr, e.call)
    ensures LockStep(net, s, tr + [e])
  {
    hide Permitted;
    var tr' := tr + [e];
    forall i | 0 <= i < |tr'|
      ensures Permitted(s, tr'[..i], tr'[i].call) && tr'[i].reply == net.reply(tr'[..i], tr'[i].call)
    {
      if i < |tr| {
        assert tr'[..i] == tr[..i];
      } else {
        assert tr'[..i] == tr;
      }
    }
  }

  // ---------- one call with retries ----------

  /** `isRetryableOpenBaoError`. */
  predicate IsRetryable(e: CallError) {
    match e
    case Cancelled => false
    case DeadlineExceeded => false
    case HttpStatus(code) => code == 408 || code == 429 || code >= 500
    case Transport => true
  }

  /** The failures that are worth another attempt: no answer, a timeout, too many requests, a server error. */
  predicate IsTransient(r: Reply) {
    || r == Failed(Transport) || r == Failed(HttpStatus(408)) || r == Failed(HttpStatus(429))
    || (r.Failed? && r.error.HttpStatus? && r.error.code >= 500)
  }

  /** The configured number of attempts, at least one. */
  function Attempts(c: Settings): (n: nat)
    ensures n >= 1
  {
    if c.retryAttempts < 1 then 1 else c.retryAttempts
  }

  /** `tr'` is `tr` plus the attempts at `call`: failures only, except that the last one may be the success. */
  ghost predicate Retried(c: Settings, tr: Trace, tr': Trace, call: Call, r: Result<Option<Status>>) {
    && tr <= tr' && 1 <= |tr'| - |tr| <= Attempts(c)
    && (forall k :: |tr| <= k < |tr'| ==> tr'[k].call == call)
    && (forall k :: |tr| <= k < |tr'| - 1 ==> IsTransient(tr'[k].reply))
    && (r.Ok? ==> tr'[|tr'| - 1].reply == Replied(r.value))
    && (r.Err? ==> tr'[|tr'| - 1].reply.Failed?)
  }

  /**
   Retrying ends after the last attempt, at an error that is not worth a retry, or when the context ends in a
   backoff.
   */
  ghost predicate GaveUp(c: Settings, net: Network, tr: Trace, tr': Trace) {
    || |tr'| - |tr| == (if c.retryAttempts < 1 then 1 else c.retryAttempts)
    || (tr' != [] && !IsTransient(tr'[|tr'| - 1].reply))
    || (c.retryBackoff > 0 && net.contextDone(tr'))
  }

  /** `callWithRetry`. */
  method CallWithRetry(c: Settings, net: Network, s: Session, tr: Trace, call: Call)
      returns (tr': Trace, r: Result<Option<Status>>)
    requires LockStep(net, s, tr) && Permitted(s, tr, call)
    ensures LockStep(net, s, tr')
    ensures Retried(c, tr, tr', call, r)
    ensures |tr'| - |tr| <= if c.retryAttempts < 1 then 1 else c.retryAttempts
    ensures r.Err? ==> GaveUp(c, net, tr, tr')
    ensures c.retryBackoff > 0 ==> forall k :: |tr| < k < |tr'| ==> !net.contextDone(tr'[..k])
  {
    hide LockStep, Permitted;
    var attempts := c.retryAttempts;
    if attempts < 1 {
      attempts := 1;
    }
    tr' := tr;
    var attempt := 1;
    while true
      invariant 1 <= attempt <= attempts
      invariant LockStep(net, s, tr') && Permitted(s, tr', call)
      invariant tr <= tr' && |tr'| == |tr| + attempt - 1
      invariant forall k :: |tr| <= k < |tr'| ==> tr'[k].call == call && IsTransient(tr'[k].reply)
      invariant c.retryBackoff > 0 ==> forall k :: |tr| < k <= |tr'| ==> !net.contextDone(tr'[..k])
      decreases attempts - attempt
    {
      var reply := net.reply(tr', call);
      assert forall k :: 0 <= k <= |tr'| ==> (tr' + [Event(call, reply)])[..k] == tr'[..k];
      LockStepExtends(net, s, tr', Event(call, reply));
      PermittedGrows(s, tr', tr' + [Event(call, reply)], call);
      tr' := tr' + [Event(call, reply)];
      if reply.Replied? {
        return tr', Ok(reply.status);
      }
      if attempt >= attempts || !IsRetryable(reply.error) {
        return tr', Err("call failed");
      }
      assert tr'[..|tr'|] == tr';
      if c.retryBackoff * attempt > 0 && net.contextDone(tr') {
        return tr', Err("retry canceled");
      }
      attempt := attempt + 1;
    }
  }

  // ---------- rounds ----------

  /** `requireRoundOutput`. */
  predicate IsRoundOutput(status: Option<Status>, round: int) {
    && status.Some? && status.value.round == round && status.value.broadcast != ""
    && (round == 2 ==> |status.value.unicasts| != 0)
  }

  /**
   What a node must answer in round `round`: in the first three rounds a broadcast for that round, and in the
   second round unicasts as well.
   */
  predicate IsAnswer(status: Option<Status>, round: int) {
    status.Some? && match status.value
      case Status(_, said, broadcast, unicasts, _) =>
        round >= 4 || (said == round && broadcast != "" && (round != 2 || unicasts != map[]))
  }

  /** The last call failed, or was answered with something that is not the round's output. */
  ghost predicate EndsBadly(tr: Trace) {
    tr != [] && match tr[|tr| - 1]
      case Event(_, Failed(_)) => true
      case Event(call, Replied(status)) => AskedRound(call) > 0 && !IsAnswer(status, AskedRound(call))
  }

  /** Sender `j` has no message of this round for receiver `i`. */
  predicate NothingFor(ps: seq<Participant>, outs: map<string, Status>, round: int, i: nat, j: nat)
    requires i < |ps| && j < |ps|
  {
    && ps[i].nodeId != ps[j].nodeId
    && (|| ps[j].nodeId !in outs
        || (round == 2 && (var unicasts := outs[ps[j].nodeId].unicasts;
                           ps[i].nodeId !in unicasts || unicasts[ps[i].nodeId] == "")))
  }

  ghost predicate MessageMissing(ps: seq<Participant>, outs: map<string, Status>, round: int) {
    exists i: nat, j: nat :: i < |ps| && j < |ps| && NothingFor(ps, outs, round, i, j)
  }

  /** Why a run was given up: a call, a missing message, or nodes that do not agree in the end. */
  ghost predicate Blamed(s: Session, tr: Trace) {
    || EndsBadly(tr)
    || (exists outs, round ::
          && 1 <= round <= 3 && Produced(tr, s.req.participants, round, outs)
          && MessageMissing(s.req.participants, outs, round))
    || (exists outs: map<string, Status> ::
          outs.Keys == Ids(s.req.participants) && Produced(tr, s.req.participants, 4, outs) && !Agreement(outs))
  }

  /** At least one and at most `Attempts` client calls per operation. */
  ghost predicate Spent(c: Settings, tr: Trace, tr': Trace, operations: nat) {
    tr <= tr' && operations <= |tr'| - |tr| <= Attempts(c) * operations
  }

  lemma SpendOneMore(c: Settings, tr0: Trace, tr1: Trace, tr2: Trace, operations: nat)
    requires Spent(c, tr0, tr1, operations) && tr1 <= tr2 && 1 <= |tr2| - |tr1| <= Attempts(c)
    ensures Spent(c, tr0, tr2, operations + 1)
  {
    assert Attempts(c) * (operations + 1) == Attempts(c) * operations + Attempts(c);
  }

  /** The call that asks participant `p` for its round-`r` output. */
  function AskFor(s: Session, r: int, p: Participant): Call
    requires p.nodeId in s.seeds
  {
    if r == 1 then Start(s.req.keyName, p, s.req.groupName, s.req.sessionId, s.commonSeed, s.seeds[p.nodeId])
    else Proceed(s.req.keyName, p, r)
  }

  /** Seeds exist for every participant. */
  predicate SeedsFor(s: Session) {
    forall i :: 0 <= i < |s.req.participants| ==> s.req.participants[i].nodeId in s.seeds
  }

  function Ids(ps: seq<Participant>): set<string> {
    set p | p in ps :: p.nodeId
  }

  lemma ProducedByOneMore(tr: Trace, tr': Trace, ps: seq<Participant>, p: Participant, r: int,
                          outs: map<string, Status>, out: Status)
    requires tr <= tr' && Produced(tr, ps, r, outs) && HandedOver(tr', r, p.nodeId, out)
    ensures Produced(tr', ps + [p], r, outs[p.nodeId := out])
  {
    hide HandedOver;
    ProducedGrows(tr, tr', ps, r, outs);
  }

  lemma AskedOnce(c: Settings, tr: Trace, tr': Trace, call: Call, r: Result<Option<Status>>)
    requires Retried(c, tr, tr', call, r) && SingleOutputs(tr)
    requires forall k :: 0 <= k < |tr| && AskedRound(tr[k].call) == AskedRound(call) ==>
        tr[k].call.to.nodeId != call.to.nodeId
    ensures SingleOutputs(tr')
  {
    forall k, l | 0 <= k < l < |tr'| && tr'[k].reply.Replied? && tr'[l].reply.Replied?
                  && AskedRound(tr'[k].call) == AskedRound(tr'[l].call) >= 1
      ensures tr'[k].call.to.nodeId != tr'[l].call.to.nodeId
    {
      assert k < |tr| ==> tr'[k] == tr[k];
      assert l < |tr| ==> tr'[l] == tr[l];
    }
  }

  lemma OnlyDeliveriesAdded(tr: Trace, tr': Trace, r: int)
    requires tr <= tr' && AskedUpTo(tr, r) && r >= 0
    requires forall k :: |tr| <= k < |tr'| ==> tr'[k].call.Deliver?
    ensures AskedUpTo(tr', r)
    ensures SingleOutputs(tr) ==> SingleOutputs(tr')
  {
    if SingleOutputs(tr) {
      forall k, l | 0 <= k < l < |tr'| && tr'[k].reply.Replied? && tr'[l].reply.Replied?
                    && AskedRound(tr'[k].call) == AskedRound(tr'[l].call) >= 1
        ensures tr'[k].call.to.nodeId != tr'[l].call.to.nodeId
      {
        assert tr'[k] == tr[k] && tr'[l] == tr[l];
      }
    }
  }

  /** Round-`round` requests in `tr` went to the given nodes only. */
  ghost predicate AskedOnly(tr: Trace, round: int, ids: set<string>) {
    forall k :: 0 <= k < |tr| ==>
      && AskedRound(tr[k].call) <= round
      && (AskedRound(tr[k].call) == round ==> tr[k].call.to.nodeId in ids)
  }

  lemma AskNext(c: Settings, tr: Trace, tr': Trace, call: Call, r: Result<Option<Status>>, ids: set<string>)
    requires Retried(c, tr, tr', call, r) && AskedOnly(tr, AskedRound(call), ids)
    ensures AskedOnly(tr', AskedRound(call), ids + {call.to.nodeId})
    ensures SingleOutputs(tr) && call.to.nodeId !in ids ==> SingleOutputs(tr')
  {
    forall k | 0 <= k < |tr'|
      ensures && AskedRound(tr'[k].call) <= AskedRound(call)
              && (AskedRound(tr'[k].call) == AskedRound(call) ==> tr'[k].call.to.nodeId in ids + {call.to.nodeId})
    {
      assert k < |tr| ==> tr'[k] == tr[k];
    }
    if SingleOutputs(tr) && call.to.nodeId !in ids {
      AskedOnce(c, tr, tr', call, r);
    }
  }

  lemma NextIdIsNew(ps: seq<Participant>, i: nat)
    requires i < |ps| && DistinctIds(ps)
    ensures ps[i].nodeId !in Ids(ps[..i])
  {
    forall k | 0 <= k < i ensures ps[k].nodeId != ps[i].nodeId {
      assert Map(NodeId, ps)[k] != Map(NodeId, ps)[i];
    }
  }

  /** Whether a trace ends badly is seen from the last operation. */
  lemma LastAnswer(c: Settings, tr: Trace, tr': Trace, call: Call, r: Result<Option<Status>>)
    requires Retried(c, tr, tr', call, r) && AskedRound(call) > 0
    ensures EndsBadly(tr') <==> r.Err? || !IsAnswer(r.value, AskedRound(call))
  {
    assert tr'[|tr'| - 1].call == call;
  }

  /** One pass of the loops of `startDKG` and `proceedRound`: ask participant `i` and check its answer. */
  method AskParticipant(c: Settings, net: Network, s: Session, tr: Trace, round: int, i: nat)
      returns (tr': Trace, r: Result<Status>)
    requires 1 <= round <= 4 && SeedsFor(s) && LockStep(net, s, tr) && i < |s.req.participants|
    requires round > 1 ==> RoundDelivered(tr, s.req.participants, round - 1)
    requires AskedOnly(tr, round, Ids(s.req.participants[..i]))
    requires DistinctIds(s.req.participants) ==> SingleOutputs(tr)
    ensures LockStep(net, s, tr') && tr <= tr' && 1 <= |tr'| - |tr| <= Attempts(c)
    ensures round > 1 ==> RoundDelivered(tr', s.req.participants, round - 1)
    ensures AskedOnly(tr', round, Ids(s.req.participants[..i + 1]))
    ensures DistinctIds(s.req.participants) ==> SingleOutputs(tr')
    ensures r.Err? <==> EndsBadly(tr')
    ensures r.Ok? ==> HandedOver(tr', round, s.req.participants[i].nodeId, r.value)
    ensures r.Ok? ==> IsAnswer(Some(r.value), round)
  {
    hide LockStep, RoundDelivered, SingleOutputs, EndsBadly, GaveUp, DistinctIds;
    var ps := s.req.participants;
    var p := ps[i];
    var call := AskFor(s, round, p);
    var reply;
    tr', reply := CallWithRetry(c, net, s, tr, call);
    LastAnswer(c, tr, tr', call, reply);
    AskNext(c, tr, tr', call, reply, Ids(ps[..i]));
    if DistinctIds(ps) {
      NextIdIsNew(ps, i);
    }
    assert ps[..i + 1] == ps[..i] + [p];
    assert Ids(ps[..i + 1]) == Ids(ps[..i]) + {p.nodeId};
    if round > 1 {
      RoundDeliveredGrows(tr, tr', ps, round - 1);
    }
    if reply.Err? {
      return tr', Err(reply.error);
    }
    if round < 4 && !IsRoundOutput(reply.value, round) {
      return tr', Err("bad round output");
    }
    if reply.value.None? {
      return tr', Err("nil pointer dereference");
    }
    assert Produces(tr'[|tr'| - 1], round, p.nodeId, reply.value.value);
    r := Ok(reply.value.value);
  }

  /** `startDKG` (round 1) and `proceedRound` (rounds 2 to 4): one output from each node, in order. */
  method CollectOutputs(c: Settings, net: Network, s: Session, tr: Trace, round: int)
      returns (tr': Trace, r: Result<map<string, Status>>, ghost operations: nat)
    requires 1 <= round <= 4 && SeedsFor(s) && LockStep(net, s, tr)
    requires round > 1 ==> RoundDelivered(tr, s.req.participants, round - 1)
    requires AskedUpTo(tr, round - 1) && (DistinctIds(s.req.participants) ==> SingleOutputs(tr))
    ensures AskedUpTo(tr', round) && (DistinctIds(s.req.participants) ==> SingleOutputs(tr'))
    ensures LockStep(net, s, tr') && Spent(c, tr, tr', operations) && operations <= |s.req.participants|
    ensures r.Ok? ==> operations == |s.req.participants|
    ensures r.Err? ==> EndsBadly(tr')
    ensures r.Ok? && s.req.participants != [] ==> !EndsBadly(tr')
    ensures r.Ok? ==> r.value.Keys == Ids(s.req.participants) && Produced(tr', s.req.participants, round, r.value)
    ensures r.Ok? ==> forall id :: id in r.value ==> IsAnswer(Some(r.value[id]), round)
  {
    hide LockStep, RoundDelivered, SingleOutputs, Spent, Produced, HandedOver, EndsBadly;
    var ps := s.req.participants;
    var outputs: map<string, Status> := map[];
    tr', operations := tr, 0;
    NothingDelivered(c, tr, ps, round, outputs);
    for i := 0 to |ps|
      invariant AskedOnly(tr', round, Ids(ps[..i])) && (DistinctIds(ps) ==> SingleOutputs(tr'))
      invariant LockStep(net, s, tr') && Spent(c, tr, tr', operations) && operations == i
      invariant round > 1 ==> RoundDelivered(tr', ps, round - 1)
      invariant outputs.Keys == Ids(ps[..i]) && Produced(tr', ps[..i], round, outputs)
      invariant i > 0 ==> !EndsBadly(tr')
      invariant forall id :: id in outputs ==> IsAnswer(Some(outputs[id]), round)
    {
      var status;
      ghost var before := tr';
      tr', status := AskParticipant(c, net, s, tr', round, i);
      SpendOneMore(c, tr, before, tr', operations);
      operations := operations + 1;
      if status.Err? {
        return tr', Err(status.error), operations;
      }
      assert ps[..i + 1] == ps[..i] + [ps[i]];
      ProducedByOneMore(before, tr', ps[..i], ps[i], round, outputs, status.value);
      outputs := outputs[ps[i].nodeId := status.value];
    }
    assert ps[..|ps|] == ps;
    r := Ok(outputs);
  }

  lemma OneMoreDelivered(tr: Trace, tr': Trace, ps: seq<Participant>, r: int, outs: map<string, Status>, i: nat, j: nat)
    requires i < |ps| && j < |ps| && tr <= tr' && AllDelivered(tr, ps, r, outs, i, j)
    requires ps[i].nodeId != ps[j].nodeId ==> Delivered(tr', r, ps[j].nodeId, ps[i], outs)
    ensures AllDelivered(tr', ps, r, outs, i, j + 1)
  {
    hide Delivered;
    AllDeliveredGrows(tr, tr', ps, r, outs, i, j);
  }

  function Deliveries(n: nat): nat {
    if n == 0 then 0 else n * (n - 1)
  }

  /** Deliveries to the first `i` receivers. */
  function DeliveriesTo(i: nat, n: nat): int {
    i * (n - 1)
  }

  /** `deliverRound`: every receiver gets the message of every other node. */
  method DeliverRound(c: Settings, net: Network, s: Session, tr: Trace, outputs: map<string, Status>, round: int)
      returns (tr': Trace, r: Result<()>, ghost operations: nat)
    requires 1 <= round <= 3 && LockStep(net, s, tr) && Produced(tr, s.req.participants, round, outputs)
    ensures LockStep(net, s, tr') && Spent(c, tr, tr', operations)
    ensures operations <= Deliveries(|s.req.participants|)
    ensures r.Ok? && DistinctIds(s.req.participants) ==> operations == Deliveries(|s.req.participants|)
    ensures r.Ok? ==> RoundDelivered(tr', s.req.participants, round)
    ensures r.Err? ==> EndsBadly(tr') || MessageMissing(s.req.participants, outputs, round)
    ensures r.Err? ==> Produced(tr', s.req.participants, round, outputs)
    ensures tr <= tr' && forall k :: |tr| <= k < |tr'| ==> tr'[k].call.Deliver?
  {
    hide LockStep, Produced, AllDelivered, Spent, EndsBadly, MessageMissing, Deliveries, DeliveriesTo;
    var ps := s.req.participants;
    ghost var n := |ps|;
    AllRows(n);
    tr', operations := tr, 0;
    NothingDelivered(c, tr, ps, round, outputs);
    for i := 0 to |ps|
      invariant LockStep(net, s, tr') && Spent(c, tr, tr', operations) && tr <= tr'
      invariant forall k :: |tr| <= k < |tr'| ==> tr'[k].call.Deliver?
      invariant Produced(tr', ps, round, outputs) && AllDelivered(tr', ps, round, outputs, i, 0)
      invariant operations <= DeliveriesTo(i, n)
      invariant DistinctIds(ps) ==> operations == DeliveriesTo(i, n)
    {
      ghost var before, row := tr', 0;
      tr', r, row := DeliverToReceiver(c, net, s, tr', outputs, round, i);
      SpentAdds(c, tr, before, tr', operations, row);
      RowBound(i, n);
      operations := operations + row;
      if r.Err? {
        return;
      }
    }
    r := Ok(());
  }

  /** The inner loop of `deliverRound`, for receiver `i`. */
  method DeliverToReceiver(c: Settings, net: Network, s: Session, tr: Trace, outputs: map<string, Status>,
                           round: int, i: nat)
      returns (tr': Trace, r: Result<()>, ghost operations: nat)
    requires 1 <= round <= 3 && LockStep(net, s, tr) && Produced(tr, s.req.participants, round, outputs)
    requires i < |s.req.participants| && AllDelivered(tr, s.req.participants, round, outputs, i, 0)
    ensures LockStep(net, s, tr') && Spent(c, tr, tr', operations) && Produced(tr', s.req.participants, round, outputs)
    ensures operations <= |s.req.participants| - 1
    ensures r.Ok? && DistinctIds(s.req.participants) ==> operations == |s.req.participants| - 1
    ensures r.Ok? ==> AllDelivered(tr', s.req.participants, round, outputs, i + 1, 0)
    ensures r.Err? ==> EndsBadly(tr') || MessageMissing(s.req.participants, outputs, round)
    ensures tr <= tr' && forall k :: |tr| <= k < |tr'| ==> tr'[k].call.Deliver?
  {
    hide LockStep, Produced, AllDelivered, Spent;
    var ps := s.req.participants;
    tr', operations := tr, 0;
    NothingDelivered(c, tr, ps, round, outputs);
    for j := 0 to |ps|
      invariant LockStep(net, s, tr') && Spent(c, tr, tr', operations) && tr <= tr'
      invariant forall k :: |tr| <= k < |tr'| ==> tr'[k].call.Deliver?
      invariant Produced(tr', ps, round, outputs) && AllDelivered(tr', ps, round, outputs, i, j)
      invariant operations <= j - (if i < j then 1 else 0)
      invariant DistinctIds(ps) ==> operations == j - (if i < j then 1 else 0)
    {
      var receiver, sender := ps[i], ps[j];
      if sender.nodeId == receiver.nodeId {
        SameIdSameIndex(ps, i, j);
        OneMoreDelivered(tr', tr', ps, round, outputs, i, j);
        continue;
      }
      if sender.nodeId !in outputs {
        assert NothingFor(ps, outputs, round, i, j);
        return tr', Err("missing round output"), operations;
      }
      var output := outputs[sender.nodeId];
      var unicast := "";
      if round == 2 {
        if receiver.nodeId !in output.unicasts || output.unicasts[receiver.nodeId] == "" {
          assert NothingFor(ps, outputs, round, i, j);
          return tr', Err("missing round 2 unicast"), operations;
        }
        unicast := output.unicasts[receiver.nodeId];
      }
      var call := Deliver(s.req.keyName, receiver, round, sender.nodeId, output.broadcast, unicast);
      var reply;
      ghost var before := tr';
      tr', reply := CallWithRetry(c, net, s, tr', call);
      SpendOneMore(c, tr, before, tr', operations);
      ProducedGrows(before, tr', ps, round, outputs);
      operations := operations + 1;
      if reply.Err? {
        return tr', Err(reply.error), operations;
      }
      assert tr'[|tr'| - 1].call == call;
      assert Delivered(tr', round, sender.nodeId, receiver, outputs);
      OneMoreDelivered(before, tr', ps, round, outputs, i, j);
    }
    RowDone(tr', ps, round, outputs, i);
    r := Ok(());
  }

  lemma SpentAdds(c: Settings, tr0: Trace, tr1: Trace, tr2: Trace, a: nat, b: nat)
    requires Spent(c, tr0, tr1, a) && Spent(c, tr1, tr2, b)
    ensures Spent(c, tr0, tr2, a + b)
  {
    assert Attempts(c) * (a + b) == Attempts(c) * a + Attempts(c) * b;
  }

  lemma NothingDelivered(c: Settings, tr: Trace, ps: seq<Participant>, r: int, outs: map<string, Status>)
    ensures AllDelivered(tr, ps, r, outs, 0, 0) && Spent(c, tr, tr, 0) && Produced(tr, [], r, outs)
  {
  }

  lemma RowDone(tr: Trace, ps: seq<Participant>, r: int, outs: map<string, Status>, i: nat)
    requires i < |ps| && AllDelivered(tr, ps, r, outs, i, |ps|)
    ensures AllDelivered(tr, ps, r, outs, i + 1, 0)
  {
    hide Delivered;
  }

  lemma RowBound(i: nat, n: nat)
    requires i < n
    ensures DeliveriesTo(i + 1, n) == DeliveriesTo(i, n) + n - 1 <= Deliveries(n)
  {
    assert i * (n - 1) + (n - 1) == (i + 1) * (n - 1) <= n * (n - 1);
  }

  lemma AllRows(n: nat)
    ensures DeliveriesTo(0, n) == 0 && DeliveriesTo(n, n) == Deliveries(n)
  {
  }

  lemma SameIdSameIndex(ps: seq<Participant>, i: nat, j: nat)
    requires i < |ps| && j < |ps| && ps[i].nodeId == ps[j].nodeId
    ensures DistinctIds(ps) ==> i == j
  {
    assert Map(NodeId, ps)[i] == Map(NodeId, ps)[j];
  }

  // ---------- bootstrap seeds ----------

  function PairLabel(left: Participant, right: Participant): string {
    "pairwise:" + left.nodeId + ":" + right.nodeId
  }

  /** The seed shared by participants `i` and `j`; the earlier of the two is named first. */
  function PairSeed(c: Settings, req: Request, i: nat, j: nat): string
    requires i < |req.participants| && j < |req.participants|
  {
    var ps := req.participants;
    var left, right := ps[if i <= j then i else j].nodeId, ps[if i <= j then j else i].nodeId;
    c.mac(c.sessionSecret, req.sessionId, req.keyName, "pairwise:" + left + ":" + right)
  }

  /** Row `i` of the matrix holds the pair seeds with exactly the other nodes. */
  ghost predicate IsSeedRow(c: Settings, req: Request, row: map<string, string>, i: nat)
    requires i < |req.participants|
  {
    && row.Keys == Ids(req.participants) - {req.participants[i].nodeId}
    && forall j :: 0 <= j < |req.participants| && req.participants[j].nodeId in row ==>
         row[req.participants[j].nodeId] == PairSeed(c, req, i, j)
  }

  ghost predicate IsSeedMatrix(c: Settings, req: Request, m: map<string, map<string, string>>) {
    && m.Keys == Ids(req.participants)
    && forall i :: 0 <= i < |req.participants| ==>
         req.participants[i].nodeId in m && IsSeedRow(c, req, m[req.participants[i].nodeId], i)
  }

  // ---------- final agreement ----------

  ghost predicate Agreement(nodes: map<string, Status>) {
    && (forall id :: id in nodes ==> nodes[id].status == "dkg_completed" && nodes[id].publicKey != "")
    && (forall a, b :: a in nodes && b in nodes ==> nodes[a].publicKey == nodes[b].publicKey)
  }

  /** The closing loop of `CoordinateDKG`, over a map and so in any order; the verdict is the same in each. */
  method CheckAgreement(nodes: map<string, Status>) returns (r: Result<string>)
    ensures r.Ok? <==> Agreement(nodes)
    ensures r.Ok? ==> forall id :: id in nodes ==> nodes[id].publicKey == r.value
    ensures r.Ok? ==> (r.value == "" <==> nodes == map[])
  {
    var publicKey := "";
    var rest := nodes.Keys;
    while rest != {}
      invariant rest <= nodes.Keys
      invariant publicKey == "" <==> rest == nodes.Keys
      invariant publicKey != "" ==> exists id :: id in nodes && nodes[id].publicKey == publicKey
      invariant forall id :: id in nodes && id !in rest ==>
          nodes[id].status == COMPLETED && nodes[id].publicKey == publicKey
      decreases rest
    {
      var nodeId :| nodeId in rest;
      var status := nodes[nodeId];
      if status.status != COMPLETED {
        return Err("completed round 4 with another status");
      }
      if status.publicKey == "" {
        return Err("completed DKG without a public key");
      }
      if publicKey == "" {
        publicKey := status.publicKey;
      } else if status.publicKey != publicKey {
        return Err("derived a different group public key");
      }
      rest := rest - {nodeId};
    }
    r := Ok(publicKey);
  }

  // ---------- bootstrap seeds, filled pair by pair ----------

  /** Entry (i, j) of the matrix is set once the loops have passed the pair. */
  predicate PairDone(i: nat, j: nat, row: nat, col: nat) {
    var lo, hi := if i < j then i else j, if i < j then j else i;
    i != j && (lo < row || (lo == row && hi < col))
  }

  ghost function DoneIds(ps: seq<Participant>, i: nat, row: nat, col: nat): set<string> {
    set j: nat | j < |ps| && PairDone(i, j, row, col) :: ps[j].nodeId
  }

  ghost predicate PartialRow(c: Settings, req: Request, r: map<string, string>, i: nat, row: nat, col: nat)
    requires i < |req.participants|
  {
    var ps := req.participants;
    && r.Keys == DoneIds(ps, i, row, col)
    && (forall j: nat :: j < |ps| && PairDone(i, j, row, col) ==>
          ps[j].nodeId in r && r[ps[j].nodeId] == PairSeed(c, req, i, j))
  }

  ghost predicate PartialSeeds(c: Settings, req: Request, m: map<string, map<string, string>>, row: nat, col: nat) {
    var ps := req.participants;
    && m.Keys == Ids(ps)
    && (forall i: nat :: i < |ps| ==> ps[i].nodeId in m && PartialRow(c, req, m[ps[i].nodeId], i, row, col))
  }

  lemma RowUnchanged(c: Settings, req: Request, r: map<string, string>, i: nat, row: nat, col: nat, row': nat,
                     col': nat)
    requires i < |req.participants| && PartialRow(c, req, r, i, row, col)
    requires forall j: nat :: j < |req.participants| ==> (PairDone(i, j, row, col) <==> PairDone(i, j, row', col'))
    ensures PartialRow(c, req, r, i, row', col')
  {
    assert DoneIds(req.participants, i, row, col) == DoneIds(req.participants, i, row', col');
  }

  lemma RowExtended(c: Settings, req: Request, r: map<string, string>, i: nat, other: nat, row: nat, col: nat,
                    row': nat, col': nat)
    requires i < |req.participants| && other < |req.participants| && PartialRow(c, req, r, i, row, col)
    requires DistinctIds(req.participants)
    requires forall j: nat :: j < |req.participants| ==>
        (PairDone(i, j, row', col') <==> PairDone(i, j, row, col) || j == other)
    ensures PartialRow(c, req, r[req.participants[other].nodeId := PairSeed(c, req, i, other)], i, row', col')
  {
    var ps := req.participants;
    assert DoneIds(ps, i, row', col') == DoneIds(ps, i, row, col) + {ps[other].nodeId} by {
      assert PairDone(i, other, row', col');
    }
    forall j: nat | j < |ps| && PairDone(i, j, row', col') && j != other
      ensures ps[j].nodeId != ps[other].nodeId
    {
      if ps[j].nodeId == ps[other].nodeId {
        SameIdSameIndex(ps, j, other);
      }
    }
  }

  function WithPair(m: map<string, map<string, string>>, left: string, right: string, seed: string)
    : map<string, map<string, string>>
    requires left in m && right in m
  {
    var once := m[left := m[left][right := seed]];
    once[right := once[right][left := seed]]
  }

  lemma PairSeedIsSymmetric(c: Settings, req: Request, i: nat, j: nat)
    requires i < |req.participants| && j < |req.participants|
    ensures PairSeed(c, req, i, j) == PairSeed(c, req, j, i)
  {
  }

  lemma OnePairMore(c: Settings, req: Request, m: map<string, map<string, string>>, i: nat, j: nat)
    requires i < j < |req.participants| && DistinctIds(req.participants) && PartialSeeds(c, req, m, i, j)
    ensures var left, right := req.participants[i].nodeId, req.participants[j].nodeId;
            PartialSeeds(c, req, WithPair(m, left, right, PairSeed(c, req, i, j)), i, j + 1)
  {
    hide PartialRow, PairSeed;
    var ps := req.participants;
    PairSeedIsSymmetric(c, req, i, j);
    var m' := WithPair(m, ps[i].nodeId, ps[j].nodeId, PairSeed(c, req, i, j));
    if ps[i].nodeId == ps[j].nodeId {
      SameIdSameIndex(ps, i, j);
    }
    assert m'.Keys == m.Keys;
    forall k: nat | k < |ps| ensures PartialRow(c, req, m'[ps[k].nodeId], k, i, j + 1) {
      if k == i {
        RowExtended(c, req, m[ps[i].nodeId], i, j, i, j, i, j + 1);
      } else if k == j {
        RowExtended(c, req, m[ps[j].nodeId], j, i, i, j, i, j + 1);
      } else {
        assert ps[k].nodeId != ps[i].nodeId && ps[k].nodeId != ps[j].nodeId by {
          assert Map(NodeId, ps)[k] != Map(NodeId, ps)[i] && Map(NodeId, ps)[k] != Map(NodeId, ps)[j];
        }
        RowUnchanged(c, req, m[ps[k].nodeId], k, i, j, i, j + 1);
      }
    }
  }

  lemma NextRow(c: Settings, req: Request, m: map<string, map<string, string>>, i: nat)
    requires i < |req.participants| && PartialSeeds(c, req, m, i, |req.participants|)
    ensures PartialSeeds(c, req, m, i + 1, i + 2)
  {
    hide PartialRow;
    var ps := req.participants;
    forall k: nat | k < |ps| ensures PartialRow(c, req, m[ps[k].nodeId], k, i + 1, i + 2) {
      RowUnchanged(c, req, m[ps[k].nodeId], k, i, |ps|, i + 1, i + 2);
    }
  }

  lemma EmptySeeds(c: Settings, req: Request, m: map<string, map<string, string>>)
    requires m.Keys == Ids(req.participants) && forall id :: id in m ==> m[id] == map[]
    ensures PartialSeeds(c, req, m, 0, 1)
  {
    var ps := req.participants;
    forall i: nat | i < |ps| ensures ps[i].nodeId in m && PartialRow(c, req, m[ps[i].nodeId], i, 0, 1) {
      assert ps[i] in ps;
      assert DoneIds(ps, i, 0, 1) == {};
    }
  }

  lemma SeedsComplete(c: Settings, req: Request, m: map<string, map<string, string>>)
    requires DistinctIds(req.participants) && PartialSeeds(c, req, m, |req.participants|, |req.participants| + 1)
    ensures IsSeedMatrix(c, req, m)
  {
    hide PartialRow, IsSeedRow;
    var ps := req.participants;
    forall i: nat | i < |ps| ensures IsSeedRow(c, req, m[ps[i].nodeId], i) {
      RowComplete(c, req, m[ps[i].nodeId], i);
    }
  }

  lemma RowComplete(c: Settings, req: Request, row: map<string, string>, i: nat)
    requires DistinctIds(req.participants) && i < |req.participants|
    requires PartialRow(c, req, row, i, |req.participants|, |req.participants| + 1)
    ensures IsSeedRow(c, req, row, i)
  {
    hide DoneIds, PairSeed, DistinctIds;
    var ps := req.participants;
    var n := |ps|;
    OthersAreDone(ps, i);
    forall j: nat | j < n && ps[j].nodeId in row ensures row[ps[j].nodeId] == PairSeed(c, req, i, j) {
      assert ps[j].nodeId != ps[i].nodeId;
      assert PairDone(i, j, n, n + 1);
    }
  }

  lemma OthersAreDone(ps: seq<Participant>, i: nat)
    requires i < |ps| && DistinctIds(ps)
    ensures DoneIds(ps, i, |ps|, |ps| + 1) == Ids(ps) - {ps[i].nodeId}
  {
    var n := |ps|;
    var done := DoneIds(ps, i, n, n + 1);
    forall id | id in done ensures id in Ids(ps) - {ps[i].nodeId} {
      var j: nat :| j < n && PairDone(i, j, n, n + 1) && ps[j].nodeId == id;
      assert Map(NodeId, ps)[i] != Map(NodeId, ps)[j];
      assert ps[j] in ps;
    }
    forall id | id in Ids(ps) - {ps[i].nodeId} ensures id in done {
      var p :| p in ps && p.nodeId == id;
      var j: nat :| j < n && ps[j] == p;
      assert PairDone(i, j, n, n + 1);
    }
  }

  /** `newDKGBootstrap`. */
  method NewBootstrap(c: Settings, req: Request) returns (r: Result<Session>)
    ensures r.Ok? <==> c.sessionSecret != ""
    ensures r.Ok? ==> && r.value.req == req && SeedsFor(r.value)
                      && r.value.commonSeed == c.mac(c.sessionSecret, req.sessionId, req.keyName, "common")
    ensures r.Ok? && DistinctIds(req.participants) ==> IsSeedMatrix(c, req, r.value.seeds)
  {
    hide PartialSeeds, IsSeedMatrix, DistinctIds;
    if c.sessionSecret == "" {
      return Err("threshold session secret is required");
    }
    var ps := req.participants;
    var commonSeed := c.mac(c.sessionSecret, req.sessionId, req.keyName, "common");
    var seeds: map<string, map<string, string>> := map id | id in Ids(ps) :: map[];
    EmptySeeds(c, req, seeds);
    for i := 0 to |ps|
      invariant seeds.Keys == Ids(ps)
      invariant DistinctIds(ps) ==> PartialSeeds(c, req, seeds, i, i + 1)
    {
      seeds := FillRow(c, req, seeds, i);
    }
    if DistinctIds(ps) {
      SeedsComplete(c, req, seeds);
    }
    assert forall i :: 0 <= i < |ps| ==> ps[i] in ps;
    r := Ok(Session(req, commonSeed, seeds));
  }

  /** The inner loop of `newDKGBootstrap`: the pairs of participant `i` with all later ones. */
  method FillRow(c: Settings, req: Request, seeds: map<string, map<string, string>>, i: nat)
      returns (seeds': map<string, map<string, string>>)
    requires i < |req.participants| && seeds.Keys == Ids(req.participants)
    requires DistinctIds(req.participants) ==> PartialSeeds(c, req, seeds, i, i + 1)
    ensures seeds'.Keys == Ids(req.participants)
    ensures DistinctIds(req.participants) ==> PartialSeeds(c, req, seeds', i + 1, i + 2)
  {
    hide PartialSeeds, DistinctIds, Ids;
    var ps := req.participants;
    var left := ps[i];
    seeds' := seeds;
    for j := i + 1 to |ps|
      invariant seeds'.Keys == Ids(ps)
      invariant DistinctIds(ps) ==> PartialSeeds(c, req, seeds', i, j)
    {
      var right := ps[j];
      IdsHold(ps, i);
      IdsHold(ps, j);
      if DistinctIds(ps) {
        OnePairMore(c, req, seeds', i, j);
      }
      var seed := c.mac(c.sessionSecret, req.sessionId, req.keyName, PairLabel(left, right));
      seeds' := seeds'[left.nodeId := seeds'[left.nodeId][right.nodeId := seed]];
      seeds' := seeds'[right.nodeId := seeds'[right.nodeId][left.nodeId := seed]];
    }
    if DistinctIds(ps) {
      NextRow(c, req, seeds', i);
    }
  }

  lemma IdsHold(ps: seq<Participant>, i: nat)
    requires i < |ps|
    ensures ps[i].nodeId in Ids(ps)
  {
    assert ps[i] in ps;
  }

  /** The finished matrix is symmetric, and no node has a seed with itself. */
  lemma SeedMatrixIsSymmetric(c: Settings, req: Request, m: map<string, map<string, string>>, i: nat, j: nat)
    requires DistinctIds(req.participants) && IsSeedMatrix(c, req, m)
    requires i < |req.participants| && j < |req.participants|
    ensures var a, b := req.participants[i].nodeId, req.participants[j].nodeId;
            && a in m && b in m && (b in m[a] <==> i != j) && (a in m[b] <==> i != j)
            && (i != j ==> m[a][b] == m[b][a])
  {
    IdsHold(req.participants, i);
    IdsHold(req.participants, j);
    assert IsSeedRow(c, req, m[req.participants[i].nodeId], i) && IsSeedRow(c, req, m[req.participants[j].nodeId], j);
    assert Map(NodeId, req.participants)[i] == req.participants[i].nodeId;
    assert Map(NodeId, req.participants)[j] == req.participants[j].nodeId;
  }

  lemma SeedRowIsUnique(c: Settings, req: Request, row: map<string, string>, row': map<string, string>, i: nat)
    requires i < |req.participants| && IsSeedRow(c, req, row, i) && IsSeedRow(c, req, row', i)
    ensures row == row'
  {
    hide PairSeed;
    forall id | id in row ensures row[id] == row'[id] {
      var p :| p in req.participants && p.nodeId == id;
      var j :| 0 <= j < |req.participants| && req.participants[j] == p;
    }
  }

  /** Settings and request fix the matrix. */
  lemma SeedMatrixIsUnique(c: Settings, req: Request,
                           m: map<string, map<string, string>>, m': map<string, map<string, string>>)
    requires IsSeedMatrix(c, req, m) && IsSeedMatrix(c, req, m')
    ensures m == m'
  {
    hide IsSeedRow;
    forall id | id in m ensures m[id] == m'[id] {
      var p :| p in req.participants && p.nodeId == id;
      var i :| 0 <= i < |req.participants| && req.participants[i] == p;
      SeedRowIsUnique(c, req, m[id], m'[id], i);
    }
  }

  /** So listing the participants of an accepted request in another order leaves the seed matrix as it is. */
  lemma OrderKeepsSeeds(c: Settings, q: ProtoRequest, ms: seq<Option<Member>>,
                        m: map<string, map<string, string>>, m': map<string, map<string, string>>)
    requires Acceptable(q) && multiset(ms) == multiset(q.participants)
    requires IsSeedMatrix(c, Canonical(q), m) && IsSeedMatrix(c, Canonical(q.(participants := ms)), m')
    ensures m == m'
  {
    hide IsSeedMatrix, Canonical, Acceptable;
    OrderIsIrrelevant(q, ms);
    SeedMatrixIsUnique(c, Canonical(q), m, m');
  }

  // ---------- the whole protocol ----------

  datatype DkgResult = DkgResult(keyName: string, groupName: string, sessionId: string, publicKey: string,
                                 nodes: map<string, Status>)

  /** Client operations of a complete run: n starts, 3 n (n - 1) deliveries, 3 n proceeds. */
  function Operations(n: nat): nat {
    3 * n * n + n
  }

  ghost predicate BoundedCalls(c: Settings, tr: Trace, n: nat) {
    |tr| <= (if c.retryAttempts < 1 then 1 else c.retryAttempts) * (3 * n * n + n)
  }

  lemma WithinBound(c: Settings, tr: Trace, operations: nat, n: nat)
    requires Spent(c, [], tr, operations) && operations <= Operations(n)
    ensures BoundedCalls(c, tr, n)
  {
    assert Attempts(c) * operations <= Attempts(c) * Operations(n);
  }

  /** Operations of the first `r` rounds. */
  function RoundCost(r: int, n: nat): int {
    r * n * n
  }

  /** What a run has established once round `r` has been delivered. */
  ghost predicate RoundClosed(c: Settings, net: Network, s: Session, tr: Trace, r: int, operations: nat) {
    var n := |s.req.participants|;
    && LockStep(net, s, tr) && AskedUpTo(tr, r) && (DistinctIds(s.req.participants) ==> SingleOutputs(tr))
    && RoundDelivered(tr, s.req.participants, r)
    && Spent(c, [], tr, operations) && operations <= RoundCost(r, n)
    && (DistinctIds(s.req.participants) ==> operations == RoundCost(r, n))
  }

  /** One round: collect the outputs, then deliver them. */
  method CollectAndDeliver(c: Settings, net: Network, s: Session, tr: Trace, round: int, ghost spent: nat)
      returns (tr': Trace, r: Result<()>, ghost operations: nat)
    requires SeedsFor(s) && 1 <= round <= 3
    requires round == 1 ==> tr == [] && spent == 0
    requires round > 1 ==> RoundClosed(c, net, s, tr, round - 1, spent)
    ensures LockStep(net, s, tr') && BoundedCalls(c, tr', |s.req.participants|)
    ensures DistinctIds(s.req.participants) ==> SingleOutputs(tr')
    ensures r.Ok? ==> RoundClosed(c, net, s, tr', round, operations)
    ensures r.Err? ==> Blamed(s, tr')
  {
    hide MessageMissing, EndsBadly;
    hide LockStep, RoundDelivered, Produced, SingleOutputs, Spent, BoundedCalls, DistinctIds, AskedUpTo, Operations,
      SeedsFor, RoundCost, Deliveries;
    ghost var n := |s.req.participants|;
    ghost var ops: nat, more: nat;
    if round == 1 {
      EmptyRun(c, net, s);
      NoCostYet(n);
    }
    var outputs;
    tr', outputs, ops := CollectOutputs(c, net, s, tr, round);
    SpentAdds(c, [], tr, tr', spent, ops);
    operations := spent + ops;
    RoundSums(round, n, spent, ops, 0);
    WithinBound(c, tr', operations, n);
    if outputs.Err? {
      return tr', Err(outputs.error), operations;
    }
    ghost var collected := tr';
    tr', r, more := DeliverRound(c, net, s, tr', outputs.value, round);
    OnlyDeliveriesAdded(collected, tr', round);
    SpentAdds(c, [], collected, tr', operations, more);
    RoundSums(round, n, spent, ops, more);
    operations := operations + more;
    WithinBound(c, tr', operations, n);
  }

  lemma NoCostYet(n: nat)
    ensures RoundCost(0, n) == 0
  {
  }

  lemma EmptyRun(c: Settings, net: Network, s: Session)
    ensures LockStep(net, s, []) && AskedUpTo([], 0) && SingleOutputs([]) && Spent(c, [], [], 0)
  {
  }

  lemma RoundSums(round: int, n: nat, spent: nat, ops: nat, more: nat)
    requires 1 <= round <= 3 && spent <= RoundCost(round - 1, n) && ops <= n && more <= Deliveries(n)
    ensures spent + ops + more <= RoundCost(round, n) <= Operations(n)
    ensures spent == RoundCost(round - 1, n) && ops == n && more == Deliveries(n) ==>
        spent + ops + more == RoundCost(round, n)
  {
    assert n + Deliveries(n) == n * n;
    assert (round - 1) * n * n + n * n == round * n * n;
    assert round * (n * n) <= 3 * (n * n);
    assert round * n * n == round * (n * n) && 3 * n * n == 3 * (n * n);
  }

  /** `CoordinateDKG`. */
  method CoordinateDKG(c: Settings, net: Network, req: Request)
      returns (tr: Trace, s: Session, r: Result<DkgResult>)
    ensures c.sessionSecret == "" ==> r.Err? && tr == []
    ensures c.sessionSecret != "" ==>
              && s.req == req && s.commonSeed == c.mac(c.sessionSecret, req.sessionId, req.keyName, "common")
              && (DistinctIds(req.participants) ==> IsSeedMatrix(c, req, s.seeds))
    ensures LockStep(net, s, tr)
    ensures DistinctIds(req.participants) ==> SingleOutputs(tr)
    ensures BoundedCalls(c, tr, |req.participants|)
    ensures var n := |req.participants|; r.Ok? && DistinctIds(req.participants) ==> |tr| >= 3 * n * n + n
    ensures r.Err? && c.sessionSecret != "" ==> Blamed(s, tr)
    ensures r.Ok? && DistinctIds(req.participants) ==> !Blamed(s, tr)
    ensures r.Ok? ==> && r.value.keyName == req.keyName && r.value.groupName == req.groupName
                      && r.value.sessionId == req.sessionId
                      && r.value.nodes.Keys == Ids(req.participants) && Agreement(r.value.nodes)
                      && Produced(tr, req.participants, 4, r.value.nodes)
                      && (forall id :: id in r.value.nodes ==> r.value.nodes[id].publicKey == r.value.publicKey)
                      && (r.value.publicKey == "" <==> r.value.nodes == map[])
  {
    hide LockStep, RoundDelivered, Produced, SingleOutputs, Spent, BoundedCalls, DistinctIds, AskedUpTo, SeedsFor;
    hide Agreement, RoundClosed, IsSeedMatrix, Ids, Blamed;
    ghost var n, ops, more := |req.participants|, 0, 0;
    var none := Session(req, "", map[]);
    var bootstrap := NewBootstrap(c, req);
    EmptyRun(c, net, none);
    WithinBound(c, [], 0, n);
    if bootstrap.Err? {
      return [], none, Err(bootstrap.error);
    }
    s := bootstrap.value;
    tr := [];
    var step: Result<()> := Ok(());
    for round := 1 to 4
      invariant round == 1 ==> tr == [] && ops == 0
      invariant round > 1 ==> RoundClosed(c, net, s, tr, round - 1, ops)
    {
      tr, step, ops := CollectAndDeliver(c, net, s, tr, round, ops);
      if step.Err? {
        return tr, s, Err(step.error);
      }
    }
    var completed;
    tr, completed, more := LastRound(c, net, s, tr, ops);
    if completed.Err? {
      return tr, s, Err(completed.error);
    }
    var publicKey := CheckAgreement(completed.value);
    if publicKey.Err? {
      Disagreement(s, tr, completed.value);
      return tr, s, Err(publicKey.error);
    }
    r := Ok(DkgResult(req.keyName, req.groupName, req.sessionId, publicKey.value, completed.value));
    if DistinctIds(req.participants) {
      SuccessIsNotBlamed(c, net, s, tr, completed.value);
    }
  }

  /** An output of a later round was asked for only after the round before was delivered. */
  lemma ProducedAfterDelivery(net: Network, s: Session, tr: Trace, r: int, outs: map<string, Status>)
    requires LockStep(net, s, tr) && r >= 2 && s.req.participants != [] && Produced(tr, s.req.participants, r, outs)
    ensures RoundDelivered(tr, s.req.participants, r - 1)
  {
    hide RoundDelivered;
    var id := s.req.participants[0].nodeId;
    assert HandedOver(tr, r, id, outs[id]);
    var k :| 0 <= k < |tr| && Produces(tr[k], r, id, outs[id]);
    assert Permitted(s, tr[..k], tr[k].call);
    RoundDeliveredGrows(tr[..k], tr, s.req.participants, r - 1);
  }

  /** In a delivered round no sender lacked a message for a receiver. */
  lemma NothingIsMissing(tr: Trace, ps: seq<Participant>, r: int, outs: map<string, Status>)
    requires 1 <= r <= 3 && SingleOutputs(tr) && Produced(tr, ps, r, outs)
    requires r == 2 ==> RoundDelivered(tr, ps, r)
    ensures !MessageMissing(ps, outs, r)
  {
    hide SingleOutputs, HandedOver;
    if r == 2 {
      var outs' :| Produced(tr, ps, r, outs') && AllDelivered(tr, ps, r, outs', |ps|, 0);
      forall i: nat, j: nat | i < |ps| && j < |ps| ensures !NothingFor(ps, outs, r, i, j) {
        if ps[i].nodeId != ps[j].nodeId {
          OutputsAreUnique(tr, ps, r, outs, outs', j);
          assert Delivered(tr, r, ps[j].nodeId, ps[i], outs');
        }
      }
    }
  }

  /** Two accounts of the last round's outputs are the same map. */
  lemma SameOutputs(tr: Trace, ps: seq<Participant>, outs: map<string, Status>, outs': map<string, Status>)
    requires SingleOutputs(tr) && Produced(tr, ps, 4, outs) && Produced(tr, ps, 4, outs')
    requires outs.Keys == Ids(ps) && outs'.Keys == Ids(ps)
    ensures outs == outs'
  {
    hide SingleOutputs, Produced;
    forall id | id in outs ensures outs[id] == outs'[id] {
      var p :| p in ps && p.nodeId == id;
      var i :| 0 <= i < |ps| && ps[i] == p;
      OutputsAreUnique(tr, ps, 4, outs, outs', i);
    }
  }

  /** A run that succeeds gives none of the reasons for giving up. */
  lemma SuccessIsNotBlamed(c: Settings, net: Network, s: Session, tr: Trace, nodes: map<string, Status>)
    requires LockStep(net, s, tr) && SingleOutputs(tr) && BoundedCalls(c, tr, |s.req.participants|)
    requires nodes.Keys == Ids(s.req.participants) && Produced(tr, s.req.participants, 4, nodes) && Agreement(nodes)
    requires s.req.participants != [] ==> !EndsBadly(tr)
    ensures !Blamed(s, tr)
  {
    hide LockStep, SingleOutputs, Produced, Agreement, EndsBadly, MessageMissing, RoundDelivered, Ids;
    var ps := s.req.participants;
    if ps == [] {
      NoCalls(c, tr);
    } else {
      ProducedAfterDelivery(net, s, tr, 4, nodes);
      OutputsOfRound(tr, ps, 3);
      var third :| Produced(tr, ps, 3, third);
      ProducedAfterDelivery(net, s, tr, 3, third);
    }
    forall outs, round | 1 <= round <= 3 && Produced(tr, ps, round, outs) ensures !MessageMissing(ps, outs, round) {
      if ps == [] {
        NobodyMisses(outs, round);
      } else {
        NothingIsMissing(tr, ps, round, outs);
      }
    }
    forall outs: map<string, Status> | outs.Keys == Ids(ps) && Produced(tr, ps, 4, outs) ensures Agreement(outs) {
      SameOutputs(tr, ps, nodes, outs);
    }
  }

  lemma NoCalls(c: Settings, tr: Trace)
    requires BoundedCalls(c, tr, 0)
    ensures tr == [] && !EndsBadly(tr)
  {
  }

  lemma NobodyMisses(outs: map<string, Status>, round: int)
    ensures !MessageMissing([], outs, round)
  {
  }

  lemma OutputsOfRound(tr: Trace, ps: seq<Participant>, r: int)
    requires RoundDelivered(tr, ps, r)
    ensures exists outs :: Produced(tr, ps, r, outs)
  {
    hide Produced, AllDelivered;
  }

  lemma Disagreement(s: Session, tr: Trace, outs: map<string, Status>)
    requires outs.Keys == Ids(s.req.participants) && Produced(tr, s.req.participants, 4, outs) && !Agreement(outs)
    ensures Blamed(s, tr)
  {
  }

  /** Round 4 of `CoordinateDKG`: every node completes. */
  method LastRound(c: Settings, net: Network, s: Session, tr: Trace, ghost spent: nat)
      returns (tr': Trace, r: Result<map<string, Status>>, ghost operations: nat)
    requires SeedsFor(s) && RoundClosed(c, net, s, tr, 3, spent)
    ensures LockStep(net, s, tr') && BoundedCalls(c, tr', |s.req.participants|)
    ensures DistinctIds(s.req.participants) ==> SingleOutputs(tr')
    ensures r.Ok? && DistinctIds(s.req.participants) ==> |tr'| >= Operations(|s.req.participants|)
    ensures r.Ok? ==> r.value.Keys == Ids(s.req.participants) && Produced(tr', s.req.participants, 4, r.value)
    ensures r.Ok? && s.req.participants != [] ==> !EndsBadly(tr')
    ensures r.Err? ==> Blamed(s, tr')
  {
    hide EndsBadly;
    hide LockStep, RoundDelivered, Produced, SingleOutputs, DistinctIds, AskedUpTo, SeedsFor;
    tr', r, operations := CollectOutputs(c, net, s, tr, 4);
    SpentAdds(c, [], tr, tr', spent, operations);
    WithinBound(c, tr', spent + operations, |s.req.participants|);
  }

  /** The one session of an accepted request: its participants in order and all the seeds that they are sent. */
  ghost predicate SessionFor(c: Settings, q: ProtoRequest, s: Session) {
    && s.req == Canonical(q)
    && s.commonSeed == c.mac(c.sessionSecret, s.req.sessionId, s.req.keyName, "common")
    && IsSeedMatrix(c, s.req, s.seeds)
  }

  /** The call sequence of a run of this request, and whether it gave up. */
  ghost predicate RunOf(c: Settings, net: Network, q: ProtoRequest, tr: Trace, failed: bool) {
    exists s :: SessionFor(c, q, s) && LockStep(net, s, tr) && (failed <==> Blamed(s, tr))
  }

  /** `CoordinateDkg`: validate, order, coordinate.  A rejected request makes no call at all. */
  method CoordinateDkg(c: Settings, net: Network, proto: Option<ProtoRequest>) returns (tr: Trace, r: Result<DkgResult>)
    ensures proto.Some? && Acceptable(proto.value) && c.sessionSecret != "" ==> RunOf(c, net, proto.value, tr, r.Err?)
    ensures proto.None? || !Acceptable(proto.value) || c.sessionSecret == "" ==> tr == [] && r.Err?
    ensures r.Ok? ==> var ps := Canonical(proto.value).participants;
              && r.value.nodes.Keys == Ids(ps) && Agreement(r.value.nodes) && r.value.publicKey != ""
              && |tr| >= 3 * |ps| * |ps| + |ps|
    ensures proto.Some? ==> BoundedCalls(c, tr, |proto.value.participants|)
    ensures SingleOutputs(tr)
  {
    hide Acceptable, Agreement, LockStep, SingleOutputs, Produced, IsSeedMatrix, Canonical, Blamed;
    var req := FromProto(proto);
    if req.Err? {
      tr, r := [], Err(req.error);
      EmptyRun(c, net, Session(Request("", "", "", 0, []), "", map[]));
      return;
    }
    CanonicalIdsDistinct(proto.value);
    var s;
    tr, s, r := CoordinateDKG(c, net, req.value);
    if r.Ok? {
      AcceptedIsNonEmpty(proto.value);
      IdsHold(req.value.participants, 0);
    }
    assert c.sessionSecret != "" ==> SessionFor(c, proto.value, s);
  }

  lemma AcceptedIsNonEmpty(q: ProtoRequest)
    requires Acceptable(q)
    ensures |Canonical(q).participants| >= 2
  {
  }
}
