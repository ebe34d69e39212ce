/**
 Credit holds, seen from the steps of a run: every hold, charge and refund goes back to a request that arrived, the
 outcome of its execution, and the way it ended.
 */
module CreditRequests {
  import opened Outcomes
  import opened Credits

  // ---------- what the steps say about a request ----------

  /** Why a request ended without settling or releasing. */
  ghost predicate Cut(steps: seq<Step>, id: nat, route: Route) {
    || Drop(id) in steps
    || (Parse(id, false) in steps && route.Rest?)
    || Place(id, MissingTenant) in steps
    || Place(id, Lost) in steps
  }

  /** The request failed: its execution did, or a check before it. */
  ghost predicate Failed(steps: seq<Step>, id: nat, route: Route) {
    Execute(id, false) in steps || (Check(id, false) in steps && route.Rest?)
  }

  ghost predicate PhaseExplained(steps: seq<Step>, id: nat, route: Route, p: Phase) {
    match p
    case Validating => route.Rpc?
    case Placing => true
    case Parsing(_) => route.Rest?
    case Checking(_) => route.Rest?
    case Executing(_) => true
    case Resolving(_, success) => if success then Execute(id, true) in steps else Failed(steps, id, route)
    case Done(_, Invalid) => Validate(id, false) in steps && route.Rpc?
    case Done(_, Refused) => Deny(id) in steps
    case Done(_, Orphaned) => Cut(steps, id, route)
    case Done(_, Finished(success)) => if success then Execute(id, true) in steps else Failed(steps, id, route)
  }

  /** RPC requests go on to their hold only when they are valid. */
  ghost predicate Validated(steps: seq<Step>, id: nat, r: Request) {
    r.route.Rpc? && !r.phase.Validating? && !r.phase.Done? ==> Validate(id, true) in steps
  }

  ghost predicate RequestExplained(steps: seq<Step>, id: nat, r: Request) {
    && Arrive(id, r.client, r.units, r.route) in steps
    && PhaseExplained(steps, id, r.route, r.phase) && Validated(steps, id, r)
  }

  /** A hold is for the client and the units that arrived, and an RPC request was valid before it was placed. */
  ghost predicate RowExplained(steps: seq<Step>, row: Row) {
    exists route ::
      Arrive(row.owner, row.client, row.units, route) in steps && (route.Rpc? ==> Validate(row.owner, true) in steps)
  }

  ghost predicate Explained(steps: seq<Step>, w: World) {
    && (forall id :: id in w.requests ==> RequestExplained(steps, id, w.requests[id]))
    && (forall i :: 0 <= i < |w.ledger.rows| ==> RowExplained(steps, w.ledger.rows[i]))
  }

  // ---------- every step ----------

  lemma RequestGrows(steps: seq<Step>, x: Step, id: nat, r: Request)
    requires RequestExplained(steps, id, r)
    ensures RequestExplained(steps + [x], id, r)
  {
    var more := steps + [x];
    assert forall y :: y in steps ==> y in more;
  }

  lemma RowGrows(steps: seq<Step>, x: Step, row: Row)
    requires RowExplained(steps, row)
    ensures RowExplained(steps + [x], row)
  {
    var route :|
      Arrive(row.owner, row.client, row.units, route) in steps && (route.Rpc? ==> Validate(row.owner, true) in steps);
    assert Arrive(row.owner, row.client, row.units, route) in steps + [x];
  }

  /** The request that the step is about. */
  lemma MovedIsExplained(steps: seq<Step>, w: World, x: Step, id: nat)
    requires Explained(steps, w) && Enabled(w, x) && id in w.requests
    ensures id in Apply(w, x).requests && RequestExplained(steps + [x], id, Apply(w, x).requests[id])
  {
    hide RowExplained, Hold, Settle, Release;
    var more := steps + [x];
    var r := w.requests[id];
    RequestGrows(steps, x, id, r);
    assert x in more;
    if x.Deliver? || x.Sweep? || x.Arrive? || x.id != id {
      assert Apply(w, x).requests[id] == r;
    } else {
      StepOfRequest(more, w, x, r);
    }
  }

  lemma StepOfRequest(more: seq<Step>, w: World, x: Step, r: Request)
    requires Enabled(w, x) && !x.Deliver? && !x.Sweep? && !x.Arrive? && x in more
    requires r == w.requests[x.id] && RequestExplained(more, x.id, r)
    ensures RequestExplained(more, x.id, Apply(w, x).requests[x.id])
  {
    hide Hold, Settle, Release;
    var p := Apply(w, x).requests[x.id].phase;
    assert Apply(w, x).requests[x.id] == r.(phase := p);
    match x
    case Validate(_, _) =>
    case Deny(_) =>
    case Exempt(_) =>
    case Place(_, _) =>
    case Parse(_, _) =>
    case Check(_, _) =>
    case Execute(_, _) =>
    case Resolve(_) =>
    case Drop(_) =>
  }

  lemma ArrivalIsExplained(steps: seq<Step>, w: World, x: Step)
    requires Enabled(w, x) && x.Arrive?
    ensures RequestExplained(steps + [x], x.id, Apply(w, x).requests[x.id])
  {
    assert x in steps + [x];
  }

  /** Statuses aside, rows are only added, and then for the request that places them. */
  lemma RowsAreExplained(steps: seq<Step>, w: World, x: Step, i: nat)
    requires Explained(steps, w) && Enabled(w, x) && i < |Apply(w, x).ledger.rows|
    ensures RowExplained(steps + [x], Apply(w, x).ledger.rows[i])
  {
    hide RequestExplained, PhaseExplained;
    StepKeepsVerdicts(w, x);
    var rows, rows' := w.ledger.rows, Apply(w, x).ledger.rows;
    if i < |rows| {
      RowGrows(steps, x, rows[i]);
      assert RowStays(rows[i], rows'[i]);
      SameRow(steps + [x], rows[i], rows'[i]);
    } else {
      PlacedRow(steps, w, x);
      RowGrows(steps, x, rows'[i]);
    }
  }

  lemma SameRow(steps: seq<Step>, row: Row, row': Row)
    requires RowExplained(steps, row) && RowStays(row, row')
    ensures RowExplained(steps, row')
  {
  }

  lemma PlacedRow(steps: seq<Step>, w: World, x: Step)
    requires Explained(steps, w) && Enabled(w, x) && |Apply(w, x).ledger.rows| > |w.ledger.rows|
    ensures |Apply(w, x).ledger.rows| == |w.ledger.rows| + 1
    ensures RowExplained(steps, Apply(w, x).ledger.rows[|w.ledger.rows|])
  {
    hide PhaseExplained, RowExplained;
    assert x.Place?;
    var r := w.requests[x.id];
    assert RequestExplained(steps, x.id, r);
    RowFromRequest(steps, x.id, r);
  }

  lemma RowFromRequest(steps: seq<Step>, id: nat, r: Request)
    requires RequestExplained(steps, id, r) && r.phase.Placing?
    ensures RowExplained(steps, Row(r.client, r.units, id, Held))
  {
    assert Arrive(id, r.client, r.units, r.route) in steps;
  }

  lemma StepIsExplained(steps: seq<Step>, w: World, x: Step)
    requires Explained(steps, w) && Enabled(w, x)
    ensures Explained(steps + [x], Apply(w, x))
  {
    hide RequestExplained, RowExplained;
    var w' := Apply(w, x);
    forall id | id in w'.requests ensures RequestExplained(steps + [x], id, w'.requests[id]) {
      if id in w.requests {
        MovedIsExplained(steps, w, x, id);
      } else {
        ArrivalIsExplained(steps, w, x);
      }
    }
    forall i | 0 <= i < |w'.ledger.rows| ensures RowExplained(steps + [x], w'.ledger.rows[i]) {
      RowsAreExplained(steps, w, x, i);
    }
  }

  lemma {:induction false} RunIsExplained(first: World, steps: seq<Step>)
    requires Initial(first) && Run(first, steps).Some?
    ensures Explained(steps, Run(first, steps).value)
  {
    hide RequestExplained, RowExplained, Apply, Enabled;
    if steps != [] {
      var n := |steps| - 1;
      RunIsExplained(first, steps[..n]);
      StepIsExplained(steps[..n], Run(first, steps[..n]).value, steps[n]);
      assert steps == steps[..n] + [steps[n]];
    }
  }

  // ---------- what every run guarantees ----------

  /** Every hold is for a request that arrived, with its client and units, and for an RPC request after validation. */
  lemma HoldsBelongToRequests(first: World, steps: seq<Step>, i: nat)
    requires Initial(first) && Run(first, steps).Some? && i < |Run(first, steps).value.ledger.rows|
    ensures RowExplained(steps, Run(first, steps).value.ledger.rows[i])
  {
    hide Run, RequestExplained, RowExplained;
    RunIsExplained(first, steps);
  }

  /** A settle goes back to an execution that succeeded, a release to a failed execution or a failed check. */
  lemma CallsFollowExecution(first: World, steps: seq<Step>, k: nat)
    requires Initial(first) && Run(first, steps).Some? && k < |Run(first, steps).value.sent|
    ensures var w := Run(first, steps).value;
            && w.sent[k].row < |w.ledger.rows|
            && var owner := w.ledger.rows[w.sent[k].row].owner;
            && (w.sent[k].SettleCall? ==> Execute(owner, true) in steps)
            && (w.sent[k].ReleaseCall? ==> Execute(owner, false) in steps || Check(owner, false) in steps)
  {
    hide Run, Conserves, RowExplained;
    RunKeepsInv(first, steps);
    RunIsExplained(first, steps);
    var w := Run(first, steps).value;
    assert CallOk(w.requests, w.ledger.rows, w.sent[k]);
    var owner := w.ledger.rows[w.sent[k].row].owner;
    assert RequestExplained(steps, owner, w.requests[owner]);
  }

  /**
   A request that ends with a hold and without a call was dropped, or is a REST request whose query or body could not
   be parsed; in particular a failed check and a failed execution both lead to a release.
   */
  lemma OnlyCutRequestsLeaveHolds(first: World, steps: seq<Step>, id: nat, r: nat)
    requires Initial(first) && Run(first, steps).Some?
    requires var w := Run(first, steps).value;
             && id in w.requests && w.requests[id].phase.Done? && w.requests[id].phase.hold == Some(r)
             && SettleCall(r) !in w.sent && ReleaseCall(r) !in w.sent
    ensures var route := Run(first, steps).value.requests[id].route;
            || Drop(id) in steps || (Parse(id, false) in steps && route.Rest?)
            || Place(id, MissingTenant) in steps || Place(id, Lost) in steps
  {
    hide Run, Conserves, RowExplained;
    RunKeepsInv(first, steps);
    RunIsExplained(first, steps);
    var w := Run(first, steps).value;
    assert RequestExplained(steps, id, w.requests[id]);
    assert FinishedOk(w.sent, w.requests[id].phase);
    assert HoldOk(w.ledger.rows, id, HoldOf(w.requests[id].phase));
    assert RowOk(w.requests, w.ledger.rows[r]);
  }

  /** The ledger does what it documents: a release or a sweep refunds a held row, a settle commits it. */
  lemma LedgerActsOnHeldRows(l: Ledger, r: nat)
    requires r < |l.rows| && l.rows[r].status.Held? && l.rows[r].client in l.balance
    ensures var row := l.rows[r];
            && Release(l, r).balance == l.balance[row.client := l.balance[row.client] + row.units]
            && Release(l, r).rows[r].status == Released
            && Settle(l, r).balance == l.balance && Settle(l, r).rows[r].status == Settled
  {
  }

  // ---------- both outcomes are reached ----------

  lemma OneMoreStep(first: World, steps: seq<Step>, w: World, x: Step)
    requires Run(first, steps) == Some(w) && Enabled(w, x)
    ensures Run(first, steps + [x]) == Some(Apply(w, x))
  {
    hide Enabled, Apply;
    assert (steps + [x])[..|steps|] == steps;
  }

  lemma Placed(first: World, client: string, units: nat, route: Route) returns (steps: seq<Step>, w: World)
    requires Initial(first) && CanHold(first.ledger, client, units)
    ensures steps == (if route.Rpc? then [Arrive(0, client, units, Rpc)] + [Validate(0, true)]
                      else [Arrive(0, client, units, Rest)]) + [Place(0, Named)]
    ensures Run(first, steps) == Some(w)
    ensures w == World(Hold(first.ledger, client, units, 0),
                       map[0 := Request(client, units, route, AfterHold(route, Some(0)))], map[], [])
  {
    hide Run, Hold;
    StartsAtFirst(first);
    var x := Arrive(0, client, units, route);
    OneMoreStep(first, [], first, x);
    assert [] + [x] == [x];
    steps, w := [x], Apply(first, x);
    if route.Rpc? {
      OneMoreStep(first, steps, w, Validate(0, true));
      steps, w := steps + [Validate(0, true)], Apply(w, Validate(0, true));
    }
    OneMoreStep(first, steps, w, Place(0, Named));
    steps, w := steps + [Place(0, Named)], Apply(w, Place(0, Named));
  }

  lemma StartsAtFirst(first: World)
    ensures Run(first, []) == Some(first)
  {
  }

  /** A valid RPC request that succeeds is charged its units once the settle arrives. */
  lemma SuccessIsCharged(first: World, client: string, units: nat)
    requires Initial(first) && CanHold(first.ledger, client, units)
    ensures var steps := [Arrive(0, client, units, Rpc)] + [Validate(0, true)] + [Place(0, Named)] + [Execute(0, true)]
                         + [Resolve(0)] + [Deliver(0)];
            var r := Run(first, steps);
            && r.Some? && r.value.ledger.rows == [Row(client, units, 0, Settled)]
            && r.value.ledger.balance == first.ledger.balance[client := first.ledger.balance[client] - units]
  {
    hide Run;
    var t, w := Placed(first, client, units, Rpc);
    OneMoreStep(first, t, w, Execute(0, true));
    t, w := t + [Execute(0, true)], Apply(w, Execute(0, true));
    OneMoreStep(first, t, w, Resolve(0));
    t, w := t + [Resolve(0)], Apply(w, Resolve(0));
    assert w.sent == [SettleCall(0)];
    OneMoreStep(first, t, w, Deliver(0));
  }

  /** A REST request that fails a check gets its units back once the release arrives. */
  lemma FailureIsRefunded(first: World, client: string, units: nat)
    requires Initial(first) && CanHold(first.ledger, client, units)
    ensures var steps := [Arrive(0, client, units, Rest)] + [Place(0, Named)] + [Parse(0, true)] + [Check(0, false)]
                         + [Resolve(0)] + [Deliver(0)];
            var r := Run(first, steps);
            && r.Some? && r.value.ledger.rows == [Row(client, units, 0, Released)]
            && r.value.ledger.balance == first.ledger.balance
  {
    hide Run;
    var t, w := Placed(first, client, units, Rest);
    OneMoreStep(first, t, w, Parse(0, true));
    t, w := t + [Parse(0, true)], Apply(w, Parse(0, true));
    OneMoreStep(first, t, w, Check(0, false));
    t, w := t + [Check(0, false)], Apply(w, Check(0, false));
    OneMoreStep(first, t, w, Resolve(0));
    t, w := t + [Resolve(0)], Apply(w, Resolve(0));
    assert w.sent == [ReleaseCall(0)];
    OneMoreStep(first, t, w, Deliver(0));
    assert Apply(w, Deliver(0)).ledger.balance == first.ledger.balance;
  }
}
