/** The beacon scheduler: a bounded queue filled by periodic ticks, drained by the builder at any time. */
module BeaconScheduler {

  /** Capacity of the queue. */
  const CAPACITY: nat := 16

  datatype Beacon = Beacon(name: string, interval: int)

  /**
   What happens around one beacon of a tick: how many events the builder receives before the send, and the
   clock when the age is checked, when the send is tried and when the execution time is noted.
   */
  datatype Moment = Moment(received: nat, check: int, send: int, stamp: int)

  datatype Visit = Visit(beacon: Beacon, moment: Moment)

  /** A successful send, with the clock readings around it. */
  datatype Sent = Sent(beacon: Beacon, moment: Moment)

  datatype State = State(lastExecs: map<string, int>, q: seq<Beacon>, received: seq<Beacon>, sent: seq<Sent>)

  predicate Due(lastExecs: map<string, int>, b: Beacon, now: int) {
    b.interval != 0 && (b.name in lastExecs ==> now - lastExecs[b.name] >= b.interval)
  }

  /** The builder takes up to `n` events from the front of the queue. */
  function Drained(s: State, n: nat): State {
    var k := if n <= |s.q| then n else |s.q|;
    s.(q := s.q[k..], received := s.received + s.q[..k])
  }

  /** One beacon of a tick: sent if it is due and there is room, and only then noted as executed. */
  function AfterVisit(s: State, v: Visit): State {
    var d, b := Drained(s, v.moment.received), v.beacon;
    if Due(s.lastExecs, b, v.moment.check) && |d.q| < CAPACITY then
      State(d.lastExecs[b.name := v.moment.stamp], d.q + [b], d.received, d.sent + [Sent(b, v.moment)])
    else d
  }

  function AfterVisits(s: State, visits: seq<Visit>): State {
    if visits == [] then s else AfterVisit(AfterVisits(s, visits[..|visits| - 1]), visits[|visits| - 1])
  }

  function Visits(registry: seq<Beacon>, moments: seq<Moment>): (visits: seq<Visit>)
    requires |moments| == |registry|
  {
    seq(|registry|, i requires 0 <= i < |registry| => Visit(registry[i], moments[i]))
  }

  class Scheduler {
    const registry: seq<Beacon>
    var lastExecs: map<string, int>
    var q: seq<Beacon>
    ghost var received: seq<Beacon>
    ghost var sent: seq<Sent>

    ghost function Now(): State
      reads this
    {
      State(lastExecs, q, received, sent)
    }

    constructor (registry: seq<Beacon>)
      ensures this.registry == registry && Now() == State(map[], [], [], [])
    {
      this.registry := registry;
      lastExecs, q, received, sent := map[], [], [], [];
    }

    /** `setLastExec`. */
    method SetLastExec(beacon: string, t: int)
      modifies this
      ensures Now() == old(Now()).(lastExecs := old(lastExecs)[beacon := t])
    {
      lastExecs := lastExecs[beacon := t];
    }

    /** The builder receives from the queue. */
    method Receive(n: nat)
      modifies this
      ensures Now() == Drained(old(Now()), n)
    {
      var k := if n <= |q| then n else |q|;
      received := received + q[..k];
      q := q[k..];
    }

    /** `checkAndTriggerBeacons`, with what happens around each beacon of the registry. */
    method CheckAndTriggerBeacons(moments: seq<Moment>)
      requires |moments| == |registry|
      modifies this
      ensures Now() == AfterVisits(old(Now()), Visits(registry, moments))
    {
      hide AfterVisit;
      ghost var start := Now();
      ghost var visits := Visits(registry, moments);
      for i := 0 to |registry|
        invariant Now() == AfterVisits(start, visits[..i])
      {
        assert visits[..i + 1][..i] == visits[..i];
        VisitBeacon(registry[i], moments[i]);
      }
      assert visits[..|registry|] == visits;
    }

    /** One pass of that loop. */
    method VisitBeacon(beacon: Beacon, m: Moment)
      modifies this
      ensures Now() == AfterVisit(old(Now()), Visit(beacon, m))
    {
      Receive(m.received);
      if beacon.interval == 0 {
        return;
      }
      if beacon.name in lastExecs && m.check - lastExecs[beacon.name] < beacon.interval {
        return;
      }
      if |q| < CAPACITY {
        q := q + [beacon];
        lastExecs := lastExecs[beacon.name := m.stamp];
        sent := sent + [Sent(beacon, m)];
      }
    }
  }

  // ---------- over any sequence of ticks ----------

  /** The clock never goes back, within a visit or from one visit to the next. */
  ghost predicate Monotone(visits: seq<Visit>) {
    && (forall i :: 0 <= i < |visits| ==> visits[i].moment.check <= visits[i].moment.send <= visits[i].moment.stamp)
    && (forall i, j :: 0 <= i < j < |visits| ==> visits[i].moment.stamp <= visits[j].moment.check)
  }

  ghost predicate Queued(sent: seq<Sent>, q: seq<Beacon>, received: seq<Beacon>) {
    |sent| == |received + q| && forall i :: 0 <= i < |sent| ==> sent[i].beacon == (received + q)[i]
  }

  /** Every event sent is received or still queued, once and in order, and the queue keeps its bound. */
  lemma {:induction false} QueueIsFifo(s: State, visits: seq<Visit>)
    requires |s.q| <= 16 && Queued(s.sent, s.q, s.received)
    ensures var t := AfterVisits(s, visits); |t.q| <= 16 && Queued(t.sent, t.q, t.received)
  {
    if visits != [] {
      var before := AfterVisits(s, visits[..|visits| - 1]);
      QueueIsFifo(s, visits[..|visits| - 1]);
      var v := visits[|visits| - 1];
      var d := Drained(before, v.moment.received);
      assert d.received + d.q == before.received + before.q;
      assert d.received + (d.q + [v.beacon]) == (d.received + d.q) + [v.beacon];
    }
  }

  /** Ticks one after the other are one sequence of visits. */
  lemma {:induction false} TicksCompose(s: State, a: seq<Visit>, b: seq<Visit>)
    ensures AfterVisits(s, a + b) == AfterVisits(AfterVisits(s, a), b)
  {
    if b == [] {
      assert a + b == a;
    } else {
      var n := |b| - 1;
      TicksCompose(s, a, b[..n]);
      assert (a + b)[..|a + b| - 1] == a + b[..n];
    }
  }

  /** No event under the same name was sent less than its interval after an earlier one was noted. */
  ghost predicate Spaced(sent: seq<Sent>) {
    forall i, j :: 0 <= i < j < |sent| && sent[i].beacon.name == sent[j].beacon.name ==>
      sent[j].moment.check - sent[i].moment.stamp >= sent[j].beacon.interval
  }

  /** The noted times are no older than the sends under the name. */
  ghost predicate Noted(s: State) {
    forall i :: 0 <= i < |s.sent| ==>
      s.sent[i].beacon.name in s.lastExecs && s.sent[i].moment.stamp <= s.lastExecs[s.sent[i].beacon.name]
  }

  ghost predicate SentDuring(sent: seq<Sent>, visits: seq<Visit>) {
    forall i :: 0 <= i < |sent| ==>
      && sent[i].moment.check <= sent[i].moment.send <= sent[i].moment.stamp
      && visits != [] && sent[i].moment.stamp <= visits[|visits| - 1].moment.stamp
  }

  /** One more send keeps the spacing, if it was due and the clock has not gone back. */
  lemma SendKeepsSpacing(s: State, v: Visit)
    requires Spaced(s.sent) && Noted(s) && Due(s.lastExecs, v.beacon, v.moment.check)
    requires forall i :: 0 <= i < |s.sent| ==> s.sent[i].moment.stamp <= v.moment.stamp
    ensures var lastExecs := s.lastExecs[v.beacon.name := v.moment.stamp];
            var t := s.(sent := s.sent + [Sent(v.beacon, v.moment)], lastExecs := lastExecs);
            Spaced(t.sent) && Noted(t)
  {
  }

  lemma {:induction false} VisitsKeepSpacing(s: State, visits: seq<Visit>)
    requires s.sent == [] && Monotone(visits)
    ensures var t := AfterVisits(s, visits); Spaced(t.sent) && Noted(t) && SentDuring(t.sent, visits)
  {
    hide AfterVisit, Spaced, Due;
    if visits == [] {
      NothingSent();
    } else {
      var n := |visits| - 1;
      VisitsKeepSpacing(s, visits[..n]);
      var before, after, v := AfterVisits(s, visits[..n]), AfterVisits(s, visits), visits[n];
      assert n > 0 ==> visits[n - 1].moment.stamp <= v.moment.check;
      VisitAppends(before, v);
      if after.sent != before.sent {
        SendKeepsSpacing(before, v);
      }
    }
  }

  lemma NothingSent()
    ensures Spaced([])
  {
  }

  /**
   Over any sequence of ticks with a monotone clock, two sends of a beacon are at least its interval apart,
   whatever execution times were noted at the start.
   */
  lemma SendsAreSpaced(s: State, visits: seq<Visit>, i: nat, j: nat)
    requires s.sent == [] && Monotone(visits)
    requires var sent := AfterVisits(s, visits).sent; i < j < |sent| && sent[i].beacon.name == sent[j].beacon.name
    ensures var sent := AfterVisits(s, visits).sent;
            sent[j].moment.send - sent[i].moment.send >= sent[j].beacon.interval
  {
    hide AfterVisits;
    VisitsKeepSpacing(s, visits);
  }

  /** A visit that finds the queue full changes neither the noted times nor what was sent. */
  lemma FullQueueChangesNothing(s: State, v: Visit)
    requires |Drained(s, v.moment.received).q| >= 16
    ensures AfterVisit(s, v).lastExecs == s.lastExecs && AfterVisit(s, v).sent == s.sent
    ensures forall later :: v.moment.check <= later && Due(s.lastExecs, v.beacon, v.moment.check) ==>
      Due(AfterVisit(s, v).lastExecs, v.beacon, later)
  {
  }

  ghost predicate NoneSent(sent: seq<Sent>, from: nat, name: string) {
    forall i :: from <= i < |sent| ==> sent[i].beacon.name != name
  }

  /** A visit appends at most its own beacon, and notes a time for no other name. */
  lemma VisitAppends(s: State, v: Visit)
    ensures var t := AfterVisit(s, v);
            || (t.sent == s.sent && t.lastExecs == s.lastExecs)
            || (t.sent == s.sent + [Sent(v.beacon, v.moment)] && Due(s.lastExecs, v.beacon, v.moment.check)
                && t.lastExecs == s.lastExecs[v.beacon.name := v.moment.stamp])
  {
  }

  /** A beacon that is due stays due until an event under its name is sent. */
  lemma {:induction false} DueUntilSent(s: State, visits: seq<Visit>, b: Beacon, now: int)
    requires Due(s.lastExecs, b, now)
    requires NoneSent(AfterVisits(s, visits).sent, |s.sent|, b.name)
    ensures var t := AfterVisits(s, visits);
            && s.sent <= t.sent && forall later :: now <= later ==> Due(t.lastExecs, b, later)
  {
    hide AfterVisit;
    if visits != [] {
      var n := |visits| - 1;
      var before, after := AfterVisits(s, visits[..n]), AfterVisits(s, visits);
      VisitAppends(before, visits[n]);
      assert NoneSent(before.sent, |s.sent|, b.name) by {
        assert forall i :: 0 <= i < |before.sent| ==> before.sent[i] == after.sent[i];
      }
      DueUntilSent(s, visits[..n], b, now);
      if after.sent != before.sent {
        assert after.sent[|before.sent|] == Sent(visits[n].beacon, visits[n].moment);
      }
      forall later | now <= later ensures Due(after.lastExecs, b, later) {
        assert Due(before.lastExecs, b, later);
      }
    }
  }

  /** A visit that finds its beacon due and room in the queue. */
  lemma SentByVisit(t: State, v: Visit)
    requires Due(t.lastExecs, v.beacon, v.moment.check) && |Drained(t, v.moment.received).q| < 16
    ensures var u := AfterVisit(t, v);
            && u.sent == t.sent + [Sent(v.beacon, v.moment)]
            && u.lastExecs == t.lastExecs[v.beacon.name := v.moment.stamp]
            && u.received + u.q == t.received + t.q + [v.beacon]
  {
    var d := Drained(t, v.moment.received);
    assert d.received + d.q == t.received + t.q;
    assert d.received + (d.q + [v.beacon]) == d.received + d.q + [v.beacon];
  }

  /** So the first visit of a due beacon that finds room sends it. */
  lemma DueIsSentOnceThereIsRoom(s: State, visits: seq<Visit>, v: Visit, now: int)
    requires v.beacon.interval != 0 && now <= v.moment.check
    requires v.beacon.name in s.lastExecs ==> now - s.lastExecs[v.beacon.name] >= v.beacon.interval
    requires var t := AfterVisits(s, visits);
             && NoneSent(t.sent, |s.sent|, v.beacon.name)
             && |Drained(t, v.moment.received).q| < 16
    ensures var t, u := AfterVisits(s, visits), AfterVisits(s, visits + [v]);
            && u.sent == t.sent + [Sent(v.beacon, v.moment)]
            && u.lastExecs == t.lastExecs[v.beacon.name := v.moment.stamp]
            && u.received + u.q == t.received + t.q + [v.beacon]
  {
    hide AfterVisit, Drained;
    DueUntilSent(s, visits, v.beacon, now);
    assert (visits + [v])[..|visits|] == visits;
    SentByVisit(AfterVisits(s, visits), v);
  }
}
