/**
 Credit holds of the gateway: hold, execute, then settle or release.

 Requests interleave, may be dropped at any point, and lose calls or answers; a settle or release may
 reach the ledger late, more than once or never. The ledger is the documented one: settle and release
 act once on a row that is still held, and a sweeper refunds held rows at any time.
 */
module Credits {
  import opened Outcomes

  // ---------- the ledger ----------

  datatype Status = Held | Settled | Released

  /** A hold: whose credits, how many, and for which request. */
  datatype Row = Row(client: string, units: nat, owner: nat, status: Status)

  datatype Ledger = Ledger(balance: map<string, nat>, rows: seq<Row>)

  predicate CanHold(l: Ledger, client: string, units: nat) {
    client in l.balance && units <= l.balance[client]
  }

  /** `Hold` deducts at once. */
  function Hold(l: Ledger, client: string, units: nat, owner: nat): Ledger
    requires CanHold(l, client, units)
  {
    Ledger(l.balance[client := l.balance[client] - units], l.rows + [Row(client, units, owner, Held)])
  }

  /** `Settle` commits a held row and leaves the balance alone. */
  function Settle(l: Ledger, r: nat): Ledger {
    if r < |l.rows| && l.rows[r].status.Held? then l.(rows := l.rows[r := l.rows[r].(status := Settled)]) else l
  }

  /** `Release`, and the sweeper: a held row is refunded. */
  function Release(l: Ledger, r: nat): Ledger {
    if r < |l.rows| && l.rows[r].status.Held? && l.rows[r].client in l.balance then
      var row := l.rows[r];
      Ledger(l.balance[row.client := l.balance[row.client] + row.units], l.rows[r := row.(status := Released)])
    else l
  }

  // ---------- requests ----------

  datatype Route = Rpc | Rest

  /** How a request ended. `Finished` requests have issued their settle or release. */
  datatype End = Invalid | Refused | Orphaned | Finished(success: bool)

  /** Where a request stands; `hold` is the ledger row it knows of, if any. */
  datatype Phase =
    | Validating
    | Placing
    | Parsing(hold: Option<nat>)
    | Checking(hold: Option<nat>)
    | Executing(hold: Option<nat>)
    | Resolving(hold: Option<nat>, success: bool)
    | Done(hold: Option<nat>, end: End)

  datatype Request = Request(client: string, units: nat, route: Route, phase: Phase)

  datatype Message = SettleCall(row: nat) | ReleaseCall(row: nat)

  /** `results` remembers how the execution of each request came out; a timeout is a failure. */
  datatype World = World(ledger: Ledger, requests: map<nat, Request>, results: map<nat, bool>, sent: seq<Message>)

  ghost predicate Initial(w: World) {
    w.ledger.rows == [] && w.requests == map[] && w.results == map[] && w.sent == []
  }

  /** What the gateway makes of a hold that the ledger has placed. */
  datatype HoldAnswer = Named | Unnamed | MissingTenant | Lost

  /**
   `Exempt`: the ledger answers ok with an empty `ledger_id` and has placed nothing; `account_settle` and
   `account_release` provide for that. Without an account client a request is denied.
   */
  datatype Step =
    | Arrive(id: nat, client: string, units: nat, route: Route)
    | Validate(id: nat, ok: bool)
    | Deny(id: nat)
    | Exempt(id: nat)
    | Place(id: nat, answer: HoldAnswer)
    | Parse(id: nat, ok: bool)
    | Check(id: nat, ok: bool)
    | Execute(id: nat, success: bool)
    | Resolve(id: nat)
    | Drop(id: nat)
    | Deliver(k: nat)
    | Sweep(row: nat)

  predicate Enabled(w: World, step: Step) {
    match step
    case Arrive(id, _, _, _) => id !in w.requests
    case Validate(id, _) => id in w.requests && w.requests[id].phase.Validating?
    case Deny(id) => id in w.requests && w.requests[id].phase.Placing?
    case Exempt(id) => id in w.requests && w.requests[id].phase.Placing?
    case Place(id, _) =>
      && id in w.requests && w.requests[id].phase.Placing?
      && CanHold(w.ledger, w.requests[id].client, w.requests[id].units)
    case Parse(id, _) => id in w.requests && w.requests[id].phase.Parsing?
    case Check(id, _) => id in w.requests && w.requests[id].phase.Checking?
    case Execute(id, _) => id in w.requests && w.requests[id].phase.Executing?
    case Resolve(id) => id in w.requests && w.requests[id].phase.Resolving?
    case Drop(id) => id in w.requests && !w.requests[id].phase.Done?
    case Deliver(k) => k < |w.sent|
    case Sweep(_) => true
  }

  function Move(w: World, id: nat, phase: Phase): World
    requires id in w.requests
  {
    w.(requests := w.requests[id := w.requests[id].(phase := phase)])
  }

  /** After the hold: an RPC request executes at once, a REST request has still to be parsed and checked. */
  function AfterHold(route: Route, hold: Option<nat>): Phase {
    if route.Rpc? then Executing(hold) else Parsing(hold)
  }

  function HoldOf(p: Phase): Option<nat> {
    match p
    case Validating => None
    case Placing => None
    case Parsing(hold) => hold
    case Checking(hold) => hold
    case Executing(hold) => hold
    case Resolving(hold, _) => hold
    case Done(hold, _) => hold
  }

  function Apply(w: World, step: Step): World
    requires Enabled(w, step)
  {
    match step
    case Arrive(id, client, units, route) =>
      // RPC requests are validated before the hold; REST routes place it in a filter.
      w.(requests := w.requests[id := Request(client, units, route, if route.Rpc? then Validating else Placing)])
    case Validate(id, ok) => Move(w, id, if ok then Placing else Done(None, Invalid))
    case Deny(id) => Move(w, id, Done(None, Refused))
    case Exempt(id) => Move(w, id, AfterHold(w.requests[id].route, None))
    case Place(id, answer) =>
      var r := w.requests[id];
      var placed := w.(ledger := Hold(w.ledger, r.client, r.units, id));
      (match answer
       case Named => Move(placed, id, AfterHold(r.route, Some(|w.ledger.rows|)))
       case Unnamed => Move(placed, id, AfterHold(r.route, None))
       case MissingTenant => Move(placed, id, Done(None, Orphaned))
       case Lost => Move(placed, id, Done(None, Orphaned)))
    case Parse(id, ok) =>
      var hold := w.requests[id].phase.hold;
      Move(w, id, if ok then Checking(hold) else Done(hold, Orphaned))
    case Check(id, ok) =>
      var hold := w.requests[id].phase.hold;
      Move(w, id, if ok then Executing(hold) else Resolving(hold, false))
    case Execute(id, success) =>
      Move(w.(results := w.results[id := success]), id, Resolving(w.requests[id].phase.hold, success))
    case Resolve(id) =>
      var p := w.requests[id].phase;
      var done := Move(w, id, Done(p.hold, Finished(p.success)));
      if p.hold.None? then done
      else done.(sent := w.sent + [if p.success then SettleCall(p.hold.value) else ReleaseCall(p.hold.value)])
    case Drop(id) => Move(w, id, Done(HoldOf(w.requests[id].phase), Orphaned))
    case Deliver(k) =>
      w.(ledger := if w.sent[k].SettleCall? then Settle(w.ledger, w.sent[k].row) else Release(w.ledger, w.sent[k].row))
    case Sweep(row) => w.(ledger := Release(w.ledger, row))
  }

  ghost function Run(first: World, steps: seq<Step>): Option<World> {
    if steps == [] then Some(first)
    else
      match Run(first, steps[..|steps| - 1])
      case None => None
      case Some(w) => if Enabled(w, steps[|steps| - 1]) then Some(Apply(w, steps[|steps| - 1])) else None
  }

  // ---------- sums ----------

  function Amount(row: Row, client: string, status: Status): nat {
    if row.client == client && row.status == status then row.units else 0
  }

  /** The units of the client's rows in this status. */
  function Total(rows: seq<Row>, client: string, status: Status): (n: nat) {
    if rows == [] then 0
    else Total(rows[..|rows| - 1], client, status) + Amount(rows[|rows| - 1], client, status)
  }

  lemma {:induction false} TotalAfterUpdate(rows: seq<Row>, i: nat, row: Row, client: string, status: Status)
    requires i < |rows|
    ensures Total(rows[i := row], client, status)
         == Total(rows, client, status) - Amount(rows[i], client, status) + Amount(row, client, status)
  {
    hide Amount;
    var n := |rows| - 1;
    if i < n {
      TotalAfterUpdate(rows[..n], i, row, client, status);
      assert rows[i := row][..n] == rows[..n][i := row];
    } else {
      assert rows[i := row][..n] == rows[..n];
    }
  }

  lemma TotalOfMore(rows: seq<Row>, row: Row, client: string, status: Status)
    ensures Total(rows + [row], client, status) == Total(rows, client, status) + Amount(row, client, status)
  {
    assert (rows + [row])[..|rows|] == rows;
  }

  /** What a client owns, has on hold and has paid. */
  function Worth(l: Ledger, client: string): nat
    requires client in l.balance
  {
    l.balance[client] + Total(l.rows, client, Held) + Total(l.rows, client, Settled)
  }

  ghost predicate Conserves(l: Ledger, l': Ledger) {
    l'.balance.Keys == l.balance.Keys && forall c :: c in l.balance ==> Worth(l', c) == Worth(l, c)
  }

  lemma HoldConserves(l: Ledger, client: string, units: nat, owner: nat)
    requires CanHold(l, client, units)
    ensures Conserves(l, Hold(l, client, units, owner))
  {
    forall c | c in l.balance ensures Worth(Hold(l, client, units, owner), c) == Worth(l, c) {
      TotalOfMore(l.rows, Row(client, units, owner, Held), c, Held);
      TotalOfMore(l.rows, Row(client, units, owner, Held), c, Settled);
    }
  }

  lemma SettleConserves(l: Ledger, r: nat)
    ensures Conserves(l, Settle(l, r))
  {
    hide Total;
    if Settle(l, r) != l {
      forall c | c in l.balance ensures Worth(Settle(l, r), c) == Worth(l, c) {
        TotalAfterUpdate(l.rows, r, l.rows[r].(status := Settled), c, Held);
        TotalAfterUpdate(l.rows, r, l.rows[r].(status := Settled), c, Settled);
      }
    }
  }

  lemma ReleaseConserves(l: Ledger, r: nat)
    ensures Conserves(l, Release(l, r))
  {
    hide Total;
    if Release(l, r) != l {
      forall c | c in l.balance ensures Worth(Release(l, r), c) == Worth(l, c) {
        TotalAfterUpdate(l.rows, r, l.rows[r].(status := Released), c, Held);
        TotalAfterUpdate(l.rows, r, l.rows[r].(status := Released), c, Settled);
      }
    }
  }

  // ---------- the invariant ----------

  /** No hold has been placed, or none ever will be. */
  predicate Unplaced(p: Phase) {
    p.Validating? || p.Placing? || (p.Done? && (p.end.Invalid? || p.end.Refused?))
  }

  type Requests = map<nat, Request>

  /** A row belongs to a request that has placed its hold. */
  ghost predicate RowOk(requests: Requests, row: Row) {
    && row.owner in requests && !Unplaced(requests[row.owner].phase)
    && requests[row.owner].client == row.client && requests[row.owner].units == row.units
  }

  ghost predicate RowsOk(requests: Requests, rows: seq<Row>) {
    forall i :: 0 <= i < |rows| ==> RowOk(requests, rows[i])
  }

  /** No request owns two rows. */
  ghost predicate OwnersOk(rows: seq<Row>) {
    forall i, j :: 0 <= i < j < |rows| ==> rows[i].owner != rows[j].owner
  }

  /** The row a request knows of is its own. */
  ghost predicate HoldOk(rows: seq<Row>, id: nat, hold: Option<nat>) {
    hold.Some? ==> hold.value < |rows| && rows[hold.value].owner == id
  }

  ghost predicate HoldsOk(requests: Requests, rows: seq<Row>) {
    forall id :: id in requests ==> HoldOk(rows, id, HoldOf(requests[id].phase))
  }

  /** The row's request has reached the end that calls for this message. */
  ghost predicate CallOk(requests: Requests, rows: seq<Row>, m: Message) {
    && m.row < |rows| && rows[m.row].owner in requests
    && requests[rows[m.row].owner].phase == Done(Some(m.row), Finished(m.SettleCall?))
  }

  ghost predicate SentOk(requests: Requests, rows: seq<Row>, sent: seq<Message>) {
    && (forall k :: 0 <= k < |sent| ==> CallOk(requests, rows, sent[k]))
    && (forall k, l :: 0 <= k < l < |sent| ==> sent[k].row != sent[l].row)
  }

  function CallOf(r: nat, success: bool): Message {
    if success then SettleCall(r) else ReleaseCall(r)
  }

  /** Whoever finished with a hold in hand has issued the call for it. */
  ghost predicate FinishedOk(sent: seq<Message>, p: Phase) {
    p.Done? && p.end.Finished? && p.hold.Some? ==> CallOf(p.hold.value, p.end.success) in sent
  }

  ghost predicate AllFinishedOk(requests: Requests, sent: seq<Message>) {
    forall id :: id in requests ==> FinishedOk(sent, requests[id].phase)
  }

  predicate Worked(results: map<nat, bool>, id: nat) {
    id in results && results[id]
  }

  /** What a request is about to report, or has reported, is how its execution came out. */
  ghost predicate ReportOk(results: map<nat, bool>, id: nat, p: Phase) {
    match p
    case Resolving(_, success) => success == Worked(results, id)
    case Done(_, Finished(success)) => success == Worked(results, id)
    case Done(_, _) => true
    case _ => id !in results
  }

  ghost predicate ReportsOk(requests: Requests, results: map<nat, bool>) {
    && results.Keys <= requests.Keys
    && forall id :: id in requests ==> ReportOk(results, id, requests[id].phase)
  }

  /** Only a settle call charges. */
  ghost predicate ChargesOk(rows: seq<Row>, sent: seq<Message>) {
    forall i :: 0 <= i < |rows| && rows[i].status.Settled? ==> SettleCall(i) in sent
  }

  ghost predicate Inv(first: World, w: World) {
    var rows := w.ledger.rows;
    && RowsOk(w.requests, rows) && OwnersOk(rows) && HoldsOk(w.requests, rows)
    && SentOk(w.requests, rows, w.sent) && AllFinishedOk(w.requests, w.sent) && ChargesOk(rows, w.sent)
    && ReportsOk(w.requests, w.results) && Conserves(first.ledger, w.ledger)
  }

  // ---------- every step keeps it ----------

  /** Rows keep client, units and owner for good, and their verdict once there is one. */
  ghost predicate RowStays(row: Row, row': Row) {
    && row'.client == row.client && row'.units == row.units && row'.owner == row.owner
    && (!row.status.Held? ==> row'.status == row.status)
  }

  ghost predicate RowsStay(rows: seq<Row>, rows': seq<Row>) {
    |rows| <= |rows'| && forall i :: 0 <= i < |rows| ==> RowStays(rows[i], rows'[i])
  }

  /** Statuses may change, if nothing is charged without a settle call. */
  lemma StatusChangeKeepsInv(first: World, w: World, l: Ledger)
    requires Inv(first, w) && Conserves(w.ledger, l)
    requires RowsStay(w.ledger.rows, l.rows) && |l.rows| == |w.ledger.rows| && ChargesOk(l.rows, w.sent)
    ensures Inv(first, w.(ledger := l))
  {
    hide Worth;
    var rows := w.ledger.rows;
    forall i | 0 <= i < |rows| ensures RowOk(w.requests, l.rows[i]) {
      assert RowOk(w.requests, rows[i]) && RowStays(rows[i], l.rows[i]);
    }
    forall i, j | 0 <= i < j < |rows| ensures l.rows[i].owner != l.rows[j].owner {
      assert RowStays(rows[i], l.rows[i]) && RowStays(rows[j], l.rows[j]);
    }
    forall id | id in w.requests ensures HoldOk(l.rows, id, HoldOf(w.requests[id].phase)) {
      assert HoldOk(rows, id, HoldOf(w.requests[id].phase));
    }
    forall k | 0 <= k < |w.sent| ensures CallOk(w.requests, l.rows, w.sent[k]) {
      assert CallOk(w.requests, rows, w.sent[k]);
    }
  }

  lemma ReportDependsOnItsResult(results: map<nat, bool>, results': map<nat, bool>, id: nat, p: Phase)
    requires ReportOk(results, id, p)
    requires (id in results' <==> id in results) && (id in results' ==> results'[id] == results[id])
    ensures ReportOk(results', id, p)
  {
  }

  /** A request in progress goes on, without a new row and without finishing. */
  lemma MoveKeepsInv(first: World, w: World, id: nat, phase: Phase, results: map<nat, bool>)
    requires Inv(first, w) && id in w.requests
    requires var p := w.requests[id].phase;
             && !p.Done? && (Unplaced(phase) ==> Unplaced(p))
             && (HoldOf(phase) == HoldOf(p) || HoldOf(phase).None?) && !(phase.Done? && phase.end.Finished?)
    requires results.Keys <= w.requests.Keys && ReportOk(results, id, phase)
    requires forall k :: k != id ==> (k in results <==> k in w.results) && (k in results ==> results[k] == w.results[k])
    ensures Inv(first, Move(w.(results := results), id, phase))
  {
    hide Conserves, Unplaced, HoldOf, ReportOk;
    var w' := Move(w.(results := results), id, phase);
    var rows := w.ledger.rows;
    forall k | k in w.requests && k != id ensures ReportOk(results, k, w.requests[k].phase) {
      ReportDependsOnItsResult(w.results, results, k, w.requests[k].phase);
    }
    forall i | 0 <= i < |rows| ensures RowOk(w'.requests, rows[i]) {
      assert RowOk(w.requests, rows[i]);
    }
    forall k | 0 <= k < |w.sent| ensures CallOk(w'.requests, rows, w.sent[k]) {
      assert CallOk(w.requests, rows, w.sent[k]);
    }
    assert HoldOk(rows, id, HoldOf(w.requests[id].phase));
  }

  lemma ArriveKeepsInv(first: World, w: World, step: Step)
    requires Inv(first, w) && Enabled(w, step) && step.Arrive?
    ensures Inv(first, Apply(w, step))
  {
    hide Conserves, Unplaced;
    var w' := Apply(w, step);
    var rows := w.ledger.rows;
    forall i | 0 <= i < |rows| ensures RowOk(w'.requests, rows[i]) {
      assert RowOk(w.requests, rows[i]);
    }
    forall k | 0 <= k < |w.sent| ensures CallOk(w'.requests, rows, w.sent[k]) {
      assert CallOk(w.requests, rows, w.sent[k]);
    }
  }

  lemma PlaceKeepsInv(first: World, w: World, id: nat, phase: Phase)
    requires Inv(first, w) && Enabled(w, Place(id, Named))
    requires !Unplaced(phase) && !(phase.Done? && phase.end.Finished?) && !phase.Resolving?
    requires HoldOf(phase).None? || HoldOf(phase) == Some(|w.ledger.rows|)
    ensures var r := w.requests[id];
            Inv(first, Move(w.(ledger := Hold(w.ledger, r.client, r.units, id)), id, phase))
  {
    hide Worth, HoldOf;
    var r := w.requests[id];
    HoldConserves(w.ledger, r.client, r.units, id);
    var w' := Move(w.(ledger := Hold(w.ledger, r.client, r.units, id)), id, phase);
    var rows, rows' := w.ledger.rows, w'.ledger.rows;
    forall i | 0 <= i < |rows| ensures rows'[i] == rows[i] && RowOk(w'.requests, rows[i]) && rows[i].owner != id {
      assert RowOk(w.requests, rows[i]);
    }
    forall k | 0 <= k < |w.sent| ensures CallOk(w'.requests, rows', w.sent[k]) {
      assert CallOk(w.requests, rows, w.sent[k]);
    }
    forall k | k in w.requests && k != id ensures HoldOk(rows', k, HoldOf(w'.requests[k].phase)) {
      assert HoldOk(rows, k, HoldOf(w.requests[k].phase));
    }
  }

  /** A finishing request issues the first and only call for its row. */
  lemma ResolveKeepsSent(first: World, w: World, step: Step)
    requires Inv(first, w) && Enabled(w, step) && step.Resolve?
    ensures var w' := Apply(w, step); SentOk(w'.requests, w.ledger.rows, w'.sent)
  {
    hide Conserves;
    var id, w', rows := step.id, Apply(w, step), w.ledger.rows;
    assert HoldOk(rows, id, HoldOf(w.requests[id].phase));
    forall k | 0 <= k < |w.sent| ensures CallOk(w'.requests, rows, w.sent[k]) && rows[w.sent[k].row].owner != id {
      assert CallOk(w.requests, rows, w.sent[k]);
    }
  }

  lemma ResolveKeepsFinished(w: World, step: Step)
    requires AllFinishedOk(w.requests, w.sent) && Enabled(w, step) && step.Resolve?
    ensures var w' := Apply(w, step); AllFinishedOk(w'.requests, w'.sent) && w.sent <= w'.sent
  {
    var w', p := Apply(w, step), w.requests[step.id].phase;
    assert p.hold.Some? ==> w'.sent[|w.sent|] == CallOf(p.hold.value, p.success);
    forall k | k in w.requests && k != step.id ensures FinishedOk(w'.sent, w'.requests[k].phase) {
      assert FinishedOk(w.sent, w.requests[k].phase);
    }
  }

  lemma ResolveKeepsReports(w: World, step: Step)
    requires ReportsOk(w.requests, w.results) && Enabled(w, step) && step.Resolve?
    ensures ReportsOk(Apply(w, step).requests, w.results)
  {
    var p := w.requests[step.id].phase;
    assert ReportOk(w.results, step.id, p);
  }

  lemma ResolveKeepsInv(first: World, w: World, step: Step)
    requires Inv(first, w) && Enabled(w, step) && step.Resolve?
    ensures Inv(first, Apply(w, step))
  {
    hide Conserves, SentOk, AllFinishedOk, ReportsOk;
    var w', rows := Apply(w, step), w.ledger.rows;
    ResolveKeepsSent(first, w, step);
    ResolveKeepsReports(w, step);
    ResolveKeepsFinished(w, step);
    forall i | 0 <= i < |rows| ensures RowOk(w'.requests, rows[i]) {
      assert RowOk(w.requests, rows[i]);
    }
    assert HoldOk(rows, step.id, HoldOf(w.requests[step.id].phase));
  }

  lemma DeliverKeepsInv(first: World, w: World, step: Step)
    requires Inv(first, w) && Enabled(w, step) && (step.Deliver? || step.Sweep?)
    ensures Inv(first, Apply(w, step))
  {
    hide Conserves, Inv;
    var r := if step.Sweep? then step.row else w.sent[step.k].row;
    SettleConserves(w.ledger, r);
    ReleaseConserves(w.ledger, r);
    ChargesOf(first, w);
    StatusChangeKeepsInv(first, w, Apply(w, step).ledger);
  }

  lemma ChargesOf(first: World, w: World)
    requires Inv(first, w)
    ensures ChargesOk(w.ledger.rows, w.sent)
  {
  }

  lemma ReportOf(first: World, w: World, id: nat)
    requires Inv(first, w) && id in w.requests
    ensures ReportOk(w.results, id, w.requests[id].phase) && w.results.Keys <= w.requests.Keys
  {
  }

  lemma StepKeepsInv(first: World, w: World, step: Step)
    requires Inv(first, w) && Enabled(w, step)
    ensures Inv(first, Apply(w, step))
  {
    hide Inv, Hold, Settle, Release, CanHold;
    match step
    case Arrive(_, _, _, _) => ArriveKeepsInv(first, w, step);
    case Place(id, answer) =>
      var n := |w.ledger.rows|;
      PlaceKeepsInv(first, w, id, AfterHold(w.requests[id].route, Some(n)));
      PlaceKeepsInv(first, w, id, AfterHold(w.requests[id].route, None));
      PlaceKeepsInv(first, w, id, Done(None, Orphaned));
    case Resolve(_) => ResolveKeepsInv(first, w, step);
    case Deliver(_) => DeliverKeepsInv(first, w, step);
    case Sweep(_) => DeliverKeepsInv(first, w, step);
    case _ =>
      ReportOf(first, w, step.id);
      MoveKeepsInv(first, w, step.id, Apply(w, step).requests[step.id].phase, Apply(w, step).results);
  }

  lemma {:induction false} RunKeepsInv(first: World, steps: seq<Step>)
    requires Initial(first) && Run(first, steps).Some?
    ensures Inv(first, Run(first, steps).value)
  {
    hide Apply, Worth;
    if steps != [] {
      RunKeepsInv(first, steps[..|steps| - 1]);
      StepKeepsInv(first, Run(first, steps[..|steps| - 1]).value, steps[|steps| - 1]);
    }
  }

  // ---------- what every run guarantees ----------

  /** A hold gets at most one settle or release call, and a settle only if its request succeeded. */
  lemma OneCallPerHold(first: World, steps: seq<Step>, k: nat)
    requires Initial(first) && Run(first, steps).Some? && k < |Run(first, steps).value.sent|
    ensures var w := Run(first, steps).value;
            && (forall l :: 0 <= l < |w.sent| && w.sent[l].row == w.sent[k].row ==> l == k)
            && w.sent[k].row < |w.ledger.rows|
            && var owner := w.ledger.rows[w.sent[k].row].owner;
            && owner in w.requests && w.requests[owner].phase.Done?
            && (w.sent[k].SettleCall? <==> Worked(w.results, owner))
  {
    hide Run, Conserves;
    RunKeepsInv(first, steps);
    var w := Run(first, steps).value;
    assert CallOk(w.requests, w.ledger.rows, w.sent[k]);
    assert ReportOk(w.results, w.ledger.rows[w.sent[k].row].owner,
      w.requests[w.ledger.rows[w.sent[k].row].owner].phase);
  }

  /** An RPC request that fails validation, and a request that is refused a hold, costs nothing. */
  lemma RejectedRequestsHoldNothing(first: World, steps: seq<Step>, id: nat, i: nat)
    requires Initial(first) && Run(first, steps).Some?
    requires var w := Run(first, steps).value;
             && id in w.requests && w.requests[id].phase.Done? && !w.requests[id].phase.end.Finished?
             && !w.requests[id].phase.end.Orphaned? && i < |w.ledger.rows|
    ensures Run(first, steps).value.ledger.rows[i].owner != id
  {
    hide Run, Conserves;
    RunKeepsInv(first, steps);
    var w := Run(first, steps).value;
    assert RowOk(w.requests, w.ledger.rows[i]);
  }

  /** A request that finishes holding a row has settled it on success and released it on failure. */
  lemma FinishedHoldsAreResolved(first: World, steps: seq<Step>, id: nat, r: nat, success: bool)
    requires Initial(first) && Run(first, steps).Some?
    requires var w := Run(first, steps).value;
             id in w.requests && w.requests[id].phase == Done(Some(r), Finished(success))
    ensures var w := Run(first, steps).value;
            && success == Worked(w.results, id)
            && r < |w.ledger.rows| && w.ledger.rows[r].owner == id
            && (SettleCall(r) in w.sent <==> success) && (ReleaseCall(r) in w.sent <==> !success)
  {
    hide Run, Conserves;
    RunKeepsInv(first, steps);
    var w := Run(first, steps).value;
    assert FinishedOk(w.sent, w.requests[id].phase);
    assert HoldOk(w.ledger.rows, id, HoldOf(w.requests[id].phase));
    forall m | m in w.sent && m.row == r ensures m.SettleCall? == success {
      assert CallOk(w.requests, w.ledger.rows, m);
    }
  }

  /** Balance, pending holds and charges of each client always add up to what the client started with. */
  lemma CreditsAreConserved(first: World, steps: seq<Step>, client: string)
    requires Initial(first) && Run(first, steps).Some? && client in first.ledger.balance
    ensures var l := Run(first, steps).value.ledger;
            && client in l.balance
            && l.balance[client] + Total(l.rows, client, Held) + Total(l.rows, client, Settled)
               == first.ledger.balance[client]
  {
    hide Run;
    RunKeepsInv(first, steps);
    assert Worth(first.ledger, client) == first.ledger.balance[client];
  }

  function Earned(results: map<nat, bool>, row: Row, client: string): nat {
    if row.client == client && Worked(results, row.owner) then row.units else 0
  }

  /** The holds of the client's successful requests. */
  function TotalEarned(results: map<nat, bool>, rows: seq<Row>, client: string): (n: nat) {
    if rows == [] then 0
    else TotalEarned(results, rows[..|rows| - 1], client) + Earned(results, rows[|rows| - 1], client)
  }

  lemma {:induction false} ChargedIsEarned(results: map<nat, bool>, rows: seq<Row>, client: string)
    requires forall i :: 0 <= i < |rows| && rows[i].status.Settled? ==> Worked(results, rows[i].owner)
    ensures Total(rows, client, Settled) <= TotalEarned(results, rows, client)
  {
    if rows != [] {
      ChargedIsEarned(results, rows[..|rows| - 1], client);
    }
  }

  /** Only successful requests are charged: each at most once, at most its own hold. */
  lemma OnlySuccessIsCharged(first: World, steps: seq<Step>, client: string)
    requires Initial(first) && Run(first, steps).Some?
    ensures var w := Run(first, steps).value;
            && (forall i :: 0 <= i < |w.ledger.rows| && w.ledger.rows[i].status.Settled? ==>
                  && Worked(w.results, w.ledger.rows[i].owner) && w.ledger.rows[i].owner in w.requests
                  && w.ledger.rows[i].units == w.requests[w.ledger.rows[i].owner].units)
            && OwnersOk(w.ledger.rows)
            && Total(w.ledger.rows, client, Settled) <= TotalEarned(w.results, w.ledger.rows, client)
  {
    hide Run, Conserves;
    RunKeepsInv(first, steps);
    var w := Run(first, steps).value;
    var rows := w.ledger.rows;
    forall i | 0 <= i < |rows| && rows[i].status.Settled?
      ensures rows[i].owner in w.requests && Worked(w.results, rows[i].owner)
      ensures rows[i].units == w.requests[rows[i].owner].units
    {
      assert RowOk(w.requests, rows[i]);
      assert CallOk(w.requests, rows, SettleCall(i));
      assert ReportOk(w.results, rows[i].owner, w.requests[rows[i].owner].phase);
    }
    ChargedIsEarned(w.results, rows, client);
  }

  /** What has been charged or refunded stays so, whatever arrives late: a refunded hold is never charged. */
  lemma {:induction false} VerdictsAreFinal(first: World, steps: seq<Step>, more: seq<Step>)
    requires Run(first, steps + more).Some?
    ensures Run(first, steps).Some?
    ensures RowsStay(Run(first, steps).value.ledger.rows, Run(first, steps + more).value.ledger.rows)
  {
    var all := steps + more;
    if more == [] {
      assert all == steps;
    } else {
      var n := |all| - 1;
      assert all[..n] == steps + more[..|more| - 1];
      VerdictsAreFinal(first, steps, more[..|more| - 1]);
      StepKeepsVerdicts(Run(first, all[..n]).value, all[n]);
    }
  }

  lemma StepKeepsVerdicts(w: World, step: Step)
    requires Enabled(w, step)
    ensures RowsStay(w.ledger.rows, Apply(w, step).ledger.rows)
  {
  }
}
