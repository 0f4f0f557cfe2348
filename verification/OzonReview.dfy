/** Review of Ozon Elastic results: accept, decline, source refreshes, deactivation confirmation, upload gate. */
module OzonReview {
  import opened Common
  import opened Decimals
  import opened OzonElastic

  datatype ReviewState = NotReviewed | Accepted | Declined | Stale | PendingDeactivateConfirmation

  datatype Confirmation = Pending | NotRequired | Confirmed

  datatype Snapshot = Snapshot(rows: seq<Row>, basisChecksum: string)

  /** A calculation operation with the review part of its summary. `successful` is its (frozen) status. */
  datatype CalculationResult = CalculationResult(
    store: nat, actionId: string, rows: seq<Row>, basisChecksum: string, successful: bool,
    state: ReviewState, confirmation: Confirmation, snapshot: Option<Snapshot>, acceptedChecksum: string,
    reviewedAt: nat)

  /** A source download that marked accepted results of a store stale; an empty action id covers every action. */
  datatype Refresh = Refresh(store: nat, actionId: string, at: nat)

  /** `refreshes` and `revived` are history: no service reads them. */
  datatype Desk = Desk(results: map<nat, CalculationResult>, clock: nat, refreshes: seq<Refresh>, revived: set<nat>)

  datatype Command =
    | Calculate(id: nat, store: nat, actionId: string, canonical: seq<SourceRow>, basisChecksum: string)
    | Accept(id: nat)
    | Decline(id: nat)
    | RefreshSources(store: nat, actionId: string)
    | ConfirmDeactivation(id: nat)
    | Upload(id: nat, addUpdateConfirmed: bool)

  predicate HasPlan(rows: seq<Row>, plan: Plan) { exists i :: 0 <= i < |rows| && rows[i].plan == plan }

  predicate HasDeactivation(rows: seq<Row>) { HasPlan(rows, DeactivateFromAction) }

  predicate Live(r: CalculationResult) { r.state == Accepted || r.state == PendingDeactivateConfirmation }

  predicate UploadAllowed(r: CalculationResult) {
    r.state == Accepted && r.acceptedChecksum != "" && r.snapshot.Some?
  }

  predicate Covers(f: Refresh, r: CalculationResult) {
    f.store == r.store && (f.actionId == "" || f.actionId == r.actionId)
  }

  // ---------- one result ----------

  function Accepting(r: CalculationResult, now: nat): Result<CalculationResult> {
    if !r.successful || r.state == Declined || r.state == Stale then Raised
    else Ok(r.(state := if HasDeactivation(r.rows) && r.confirmation != Confirmed
                        then PendingDeactivateConfirmation else Accepted,
               snapshot := Some(Snapshot(r.rows, r.basisChecksum)), acceptedChecksum := r.basisChecksum,
               reviewedAt := now))
  }

  function Declining(r: CalculationResult, now: nat): Result<CalculationResult> {
    if !r.successful || r.state == Stale then Raised
    else Ok(r.(state := Declined, snapshot := None, acceptedChecksum := "", reviewedAt := now))
  }

  predicate ReasonsPresent(rows: seq<Row>) {
    forall i :: 0 <= i < |rows| && rows[i].plan == DeactivateFromAction ==> rows[i].deactivateReason.Some?
  }

  /** Confirmation looks at the accepted snapshot only; it does not ask for the review state. */
  function Confirming(r: CalculationResult): Result<CalculationResult> {
    if r.snapshot.None? || r.snapshot.value.rows == [] then Raised
    else if !HasDeactivation(r.snapshot.value.rows) then Ok(r.(confirmation := NotRequired))
    else if !ReasonsPresent(r.snapshot.value.rows) then Raised
    else Ok(r.(confirmation := Confirmed, state := Accepted))
  }

  predicate UploadBasis(r: CalculationResult) {
    && Live(r) && r.acceptedChecksum != "" && r.snapshot.Some? && r.snapshot.value.rows != []
    && (HasPlan(r.snapshot.value.rows, AddToAction) || HasPlan(r.snapshot.value.rows, UpdateActionPrice)
        || HasDeactivation(r.snapshot.value.rows))
  }

  /** Changes of prices are confirmed for the upload, deactivations on the result. */
  predicate UploadConfirmed(r: CalculationResult, addUpdateConfirmed: bool)
    requires r.snapshot.Some?
  {
    var rows := r.snapshot.value.rows;
    (HasPlan(rows, AddToAction) || HasPlan(rows, UpdateActionPrice) ==> addUpdateConfirmed)
    && (HasDeactivation(rows) ==> r.confirmation == Confirmed)
  }

  /** An upload without deactivation confirmation is refused, and the refusal is recorded on the result. */
  function Uploading(r: CalculationResult, addUpdateConfirmed: bool): (CalculationResult, bool) {
    if !UploadBasis(r) then (r, false)
    else
      var rows := r.snapshot.value.rows;
      if (HasPlan(rows, AddToAction) || HasPlan(rows, UpdateActionPrice)) && !addUpdateConfirmed then (r, false)
      else if HasDeactivation(rows) && r.confirmation != Confirmed then
        (r.(state := PendingDeactivateConfirmation, confirmation := Pending), false)
      else (r, true)
  }

  function Refreshing(r: CalculationResult, f: Refresh): CalculationResult {
    if Live(r) && Covers(f, r) then r.(state := Stale) else r
  }

  /** The results a refresh selects. */
  function Covered(results: map<nat, CalculationResult>, f: Refresh): set<nat> {
    set id | id in results && Live(results[id]) && Covers(f, results[id])
  }

  function Marked(results: map<nat, CalculationResult>, ids: set<nat>): map<nat, CalculationResult> {
    map id | id in results :: if id in ids then results[id].(state := Stale) else results[id]
  }

  lemma MarkedAll(results: map<nat, CalculationResult>, f: Refresh)
    ensures Marked(results, Covered(results, f)) == map id | id in results :: Refreshing(results[id], f)
  {
  }

  // ---------- steps and runs ----------

  function Update(d: Desk, id: nat, r: Result<CalculationResult>): Desk {
    match r
    case Raised => d
    case Ok(updated) => d.(results := d.results[id := updated])
  }

  function Next(d: Desk, c: Command): Desk {
    var d := d.(clock := d.clock + 1);
    match c
    case Calculate(id, store, actionId, canonical, checksum) =>
      if id in d.results then d
      else
        var rows := RowsOf(canonical);
        d.(results := d.results[id := CalculationResult(
             store, actionId, rows, checksum, AllGroupsKnown(canonical), NotReviewed,
             if HasDeactivation(rows) then Pending else NotRequired, None, "", 0)])
    case Accept(id) =>
      if id !in d.results then d
      else
        var r := Accepting(d.results[id], d.clock);
        Update(d, id, r).(revived := if r.Ok? then d.revived - {id} else d.revived)
    case Decline(id) =>
      if id !in d.results then d else Update(d, id, Declining(d.results[id], d.clock))
    case RefreshSources(store, actionId) =>
      var f := Refresh(store, actionId, d.clock);
      d.(results := map id | id in d.results :: Refreshing(d.results[id], f), refreshes := d.refreshes + [f])
    case ConfirmDeactivation(id) =>
      if id !in d.results then d
      else Update(d, id, Confirming(d.results[id])).(
        revived := if d.results[id].state == Stale && HasDeactivation(d.results[id].rows) then d.revived + {id}
                   else d.revived)
    case Upload(id, confirmed) =>
      if id !in d.results then d else Update(d, id, Ok(Uploading(d.results[id], confirmed).0))
  }

  function Run(d: Desk, commands: seq<Command>): Desk
    decreases |commands|
  {
    if commands == [] then d else Next(Run(d, commands[..|commands| - 1]), commands[|commands| - 1])
  }

  const EMPTY := Desk(map[], 0, [], {})

  // ---------- what every run keeps ----------

  ghost predicate OutOfDate(d: Desk, r: CalculationResult) {
    exists i :: 0 <= i < |d.refreshes| && Covers(d.refreshes[i], r) && r.reviewedAt < d.refreshes[i].at
  }

  ghost predicate Consistent(r: CalculationResult) {
    && ReasonsPresent(r.rows)
    && (r.successful ==> !HasPlan(r.rows, Blocked))
    && (r.snapshot.Some? ==>
          r.snapshot.value == Snapshot(r.rows, r.basisChecksum) && r.acceptedChecksum == r.basisChecksum)
    && (r.state == Declined || r.state == NotReviewed ==> r.snapshot.None?)
    && (Live(r) || r.state == Stale ==> r.snapshot.Some? && r.successful)
    && (r.state == PendingDeactivateConfirmation ==> HasDeactivation(r.rows))
    && (r.state == Accepted && HasDeactivation(r.rows) ==> r.confirmation == Confirmed)
  }

  ghost predicate ResultInv(d: Desk, id: nat)
    requires id in d.results
  {
    var r := d.results[id];
    && Consistent(r) && r.reviewedAt <= d.clock
    && (r.state == Stale ==> OutOfDate(d, r))
    && (Live(r) ==> (id in d.revived <==> OutOfDate(d, r)))
  }

  ghost predicate Inv(d: Desk) {
    && (forall i :: 0 <= i < |d.refreshes| ==> d.refreshes[i].at <= d.clock)
    && forall id :: id in d.results ==> ResultInv(d, id)
  }

  lemma SameHistory(d: Desk, e: Desk, r: CalculationResult, s: CalculationResult)
    requires e.refreshes == d.refreshes
    requires s.store == r.store && s.actionId == r.actionId && s.reviewedAt == r.reviewedAt
    ensures OutOfDate(e, s) == OutOfDate(d, r)
  {
    assert forall f: Refresh :: Covers(f, s) == Covers(f, r);
  }

  lemma AfterRefresh(d: Desk, e: Desk, f: Refresh, r: CalculationResult, s: CalculationResult)
    requires e.refreshes == d.refreshes + [f] && r.reviewedAt < f.at
    requires s.store == r.store && s.actionId == r.actionId && s.reviewedAt == r.reviewedAt
    ensures OutOfDate(e, s) <==> OutOfDate(d, r) || Covers(f, r)
  {
    assert forall g: Refresh :: Covers(g, s) == Covers(g, r);
    assert e.refreshes[|d.refreshes|] == f;
    assert forall i :: 0 <= i < |d.refreshes| ==> e.refreshes[i] == d.refreshes[i];
    if OutOfDate(d, r) {
      var i :| 0 <= i < |d.refreshes| && Covers(d.refreshes[i], r) && r.reviewedAt < d.refreshes[i].at;
      assert Covers(e.refreshes[i], s);
    }
  }

  lemma RefreshKeepsInv(d: Desk, c: Command)
    requires Inv(d) && c.RefreshSources?
    ensures Inv(Next(d, c))
  {
    var e := Next(d, c);
    var f := Refresh(c.store, c.actionId, d.clock + 1);
    forall id | id in e.results
      ensures e.results[id] == Refreshing(d.results[id], f) && Consistent(e.results[id])
      ensures OutOfDate(e, e.results[id]) <==> OutOfDate(d, d.results[id]) || Covers(f, d.results[id])
    {
      AfterRefresh(d, e, f, d.results[id], e.results[id]);
    }
  }

  lemma NewResultConsistent(canonical: seq<SourceRow>)
    ensures ReasonsPresent(RowsOf(canonical))
    ensures AllGroupsKnown(canonical) ==> !HasPlan(RowsOf(canonical), Blocked)
  {
    BlockedIffUnknownGroup(canonical);
    assert forall i :: 0 <= i < |canonical| ==> RowsOf(canonical)[i] in RowsOf(canonical);
  }

  lemma StepKeepsConsistent(d: Desk, c: Command, id: nat)
    requires id in d.results && Consistent(d.results[id]) && !c.RefreshSources?
    ensures Consistent(Next(d, c).results[id])
  {
  }

  lemma StepKeepsResultInv(d: Desk, c: Command, id: nat)
    requires Inv(d) && !c.RefreshSources? && id in Next(d, c).results
    ensures ResultInv(Next(d, c), id)
  {
    var e := Next(d, c);
    if id !in d.results {
      NewResultConsistent(c.canonical);
    } else {
      var r, s := d.results[id], e.results[id];
      assert ResultInv(d, id);
      StepKeepsConsistent(d, c, id);
      if s.reviewedAt == r.reviewedAt {
        SameHistory(d, e, r, s);
      }
    }
  }

  lemma NextKeepsInv(d: Desk, c: Command)
    requires Inv(d)
    ensures Inv(Next(d, c))
  {
    if c.RefreshSources? {
      RefreshKeepsInv(d, c);
    } else {
      forall id | id in Next(d, c).results ensures ResultInv(Next(d, c), id) {
        StepKeepsResultInv(d, c, id);
      }
    }
  }

  lemma {:induction false} RunKeepsInv(commands: seq<Command>)
    ensures Inv(Run(EMPTY, commands))
    decreases |commands|
  {
    if commands != [] {
      RunKeepsInv(commands[..|commands| - 1]);
      NextKeepsInv(Run(EMPTY, commands[..|commands| - 1]), commands[|commands| - 1]);
    }
  }

  /** Upload is only ever allowed for the rows fixed at calculation time, and with every deactivation confirmed. */
  lemma UploadAllowedMeaning(commands: seq<Command>, id: nat)
    requires id in Run(EMPTY, commands).results && UploadAllowed(Run(EMPTY, commands).results[id])
    ensures var r := Run(EMPTY, commands).results[id];
      && r.successful && !HasPlan(r.rows, Blocked)
      && r.snapshot.value.rows == r.rows && r.acceptedChecksum == r.basisChecksum
      && (HasDeactivation(r.rows) ==> r.confirmation == Confirmed)
  {
    RunKeepsInv(commands);
  }

  /** An upload-allowed result was accepted after the last refresh of its sources, unless it was revived since. */
  lemma UploadAllowedIsFreshUnlessRevived(commands: seq<Command>, id: nat)
    requires id in Run(EMPTY, commands).results && UploadAllowed(Run(EMPTY, commands).results[id])
    ensures var d := Run(EMPTY, commands);
      id !in d.revived <==>
      forall i :: 0 <= i < |d.refreshes| && Covers(d.refreshes[i], d.results[id]) ==>
        d.refreshes[i].at <= d.results[id].reviewedAt
  {
    RunKeepsInv(commands);
  }

  /** The calculated part of a result never changes. */
  lemma CalculatedPartFrozen(d: Desk, c: Command, id: nat)
    requires id in d.results
    ensures id in Next(d, c).results
    ensures var r, s := d.results[id], Next(d, c).results[id];
      r.store == s.store && r.actionId == s.actionId && r.rows == s.rows && r.basisChecksum == s.basisChecksum
      && r.successful == s.successful
  {
  }

  lemma DeclinedStep(d: Desk, c: Command, id: nat)
    requires Inv(d) && id in d.results && d.results[id].state == Declined
    ensures id in Next(d, c).results && Next(d, c).results[id].state == Declined
  {
  }

  /** A declined result stays declined over every continuation, whatever is called on it. */
  lemma {:induction false} DeclinedAbsorbing(before: seq<Command>, after: seq<Command>, id: nat)
    requires id in Run(EMPTY, before).results && Run(EMPTY, before).results[id].state == Declined
    ensures id in Run(Run(EMPTY, before), after).results
    ensures Run(Run(EMPTY, before), after).results[id].state == Declined
    decreases |after|
  {
    if after != [] {
      var most, last := after[..|after| - 1], after[|after| - 1];
      DeclinedAbsorbing(before, most, id);
      RunAppend(EMPTY, before, most);
      RunKeepsInv(before + most);
      DeclinedStep(Run(Run(EMPTY, before), most), last, id);
    }
  }

  lemma {:induction false} RunAppend(d: Desk, a: seq<Command>, b: seq<Command>)
    ensures Run(d, a + b) == Run(Run(d, a), b)
    decreases |b|
  {
    if b == [] {
      assert a + b == a;
    } else {
      assert (a + b)[..|a + b| - 1] == a + b[..|b| - 1];
      RunAppend(d, a, b[..|b| - 1]);
    }
  }

  /** Exactly when a stale result stays stale: unless a deactivation is confirmed on a result that has one. */
  lemma StaleStepIff(commands: seq<Command>, c: Command, id: nat)
    requires id in Run(EMPTY, commands).results && Run(EMPTY, commands).results[id].state == Stale
    ensures var d := Run(EMPTY, commands);
      && id in Next(d, c).results
      && (Next(d, c).results[id].state == Stale <==>
          !(c == ConfirmDeactivation(id) && HasDeactivation(d.results[id].rows)))
      && (Next(d, c).results[id].state != Stale ==>
            Next(d, c).results[id].state == Accepted && id in Next(d, c).revived)
  {
    RunKeepsInv(commands);
  }

  /** Staleness is not absorbing: in every reachable state, refreshing the sources of an accepted result that has a
      deactivation and then confirming that deactivation leaves an upload-allowed result older than the refresh. */
  lemma StaleCanBeRevived(commands: seq<Command>, id: nat, actionId: string)
    requires var d := Run(EMPTY, commands);
      id in d.results && Live(d.results[id]) && HasDeactivation(d.results[id].rows)
      && d.results[id].basisChecksum != "" && (actionId == "" || actionId == d.results[id].actionId)
    ensures var d := Run(EMPTY, commands);
      var stale := Next(d, RefreshSources(d.results[id].store, actionId));
      var revived := Next(stale, ConfirmDeactivation(id));
      && stale.results[id].state == Stale
      && UploadAllowed(revived.results[id]) && OutOfDate(revived, revived.results[id])
  {
    RunKeepsInv(commands);
    var d := Run(EMPTY, commands);
    var r := d.results[id];
    var stale := Next(d, RefreshSources(r.store, actionId));
    var revived := Next(stale, ConfirmDeactivation(id));
    assert stale.results[id] == r.(state := Stale);
    assert revived.results[id] == r.(state := Accepted, confirmation := Confirmed);
    assert revived.refreshes[|d.refreshes|] == Refresh(r.store, actionId, d.clock + 1);
  }

  /** A concrete run to such a state: one active product without a minimum price, calculated and accepted. */
  lemma RevivalExample()
    ensures var source := [SourceRow("p", Active, Null, Null, Null, Null)];
      var d := Run(EMPTY, [Calculate(1, 7, "a", source, "sum"), Accept(1)]);
      1 in d.results && Live(d.results[1]) && HasDeactivation(d.results[1].rows) && d.results[1].basisChecksum != ""
  {
    var commands := [Calculate(1, 7, "a", [SourceRow("p", Active, Null, Null, Null, Null)], "sum"), Accept(1)];
    assert commands[..1] == [commands[0]] && [commands[0]][..0] == [];
    assert Run(EMPTY, commands) == Next(Next(EMPTY, commands[0]), commands[1]);
    var source := SourceRow("p", Active, Null, Null, Null, Null);
    assert DecisionFor(source) == Decision(MissingMinPrice, None);
    assert RowsOf([source])[0] == CalculationRow(source) && CalculationRow(source).plan == DeactivateFromAction;
    assert AllGroupsKnown([source]);
  }

  /** Accepting again succeeds and changes neither the accepted snapshot nor its checksum. */
  lemma ReacceptKeepsSnapshot(commands: seq<Command>, id: nat)
    requires id in Run(EMPTY, commands).results && Live(Run(EMPTY, commands).results[id])
    ensures var d := Run(EMPTY, commands); var e := Next(d, Accept(id));
      && Accepting(d.results[id], d.clock + 1).Ok?
      && e.results[id].snapshot == d.results[id].snapshot
         && e.results[id].acceptedChecksum == d.results[id].acceptedChecksum
      && id !in e.revived
  {
    RunKeepsInv(commands);
  }

  // ---------- the steps in terms of the fields ----------

  /** The results a refresh moves: accepted or awaiting a deactivation, of that store, and of that action unless none is
      given. */
  ghost function Affected(results: map<nat, CalculationResult>, store: nat, actionId: string): set<nat> {
    set id | id in results && results[id].state in {Accepted, PendingDeactivateConfirmation}
             && results[id].store == store && (actionId == "" || results[id].actionId == actionId)
  }

  /** A refresh makes exactly those results stale, and changes nothing else of any. */
  lemma RefreshMarksIff(d: Desk, store: nat, actionId: string)
    ensures var results, after := d.results, Next(d, RefreshSources(store, actionId)).results;
      && after.Keys == results.Keys
      && forall id :: id in results ==>
           after[id] == if id in Affected(results, store, actionId) then results[id].(state := Stale) else results[id]
  {
  }

  ghost predicate Deactivates(rows: seq<Row>) { exists row :: row in rows && row.plan == DeactivateFromAction }

  ghost predicate Changes(rows: seq<Row>) { exists row :: row in rows && row.plan in {AddToAction, UpdateActionPrice} }

  lemma HasPlanIff(rows: seq<Row>, plan: Plan)
    ensures HasPlan(rows, plan) <==> exists row :: row in rows && row.plan == plan
  {
    if row :| row in rows && row.plan == plan {
      var i :| 0 <= i < |rows| && rows[i] == row;
      assert rows[i].plan == plan;
    }
  }

  lemma PlansIff(rows: seq<Row>)
    ensures HasDeactivation(rows) <==> Deactivates(rows)
    ensures HasPlan(rows, AddToAction) || HasPlan(rows, UpdateActionPrice) <==> Changes(rows)
  {
    HasPlanIff(rows, DeactivateFromAction);
    HasPlanIff(rows, AddToAction);
    HasPlanIff(rows, UpdateActionPrice);
  }

  lemma ReasonsPresentIff(rows: seq<Row>)
    ensures ReasonsPresent(rows) <==>
              forall row :: row in rows && row.plan == DeactivateFromAction ==> row.deactivateReason.Some?
  {
  }

  /** A new result awaits confirmation exactly when it deactivates a product, and is successful exactly when every
      source group was known. */
  lemma CalculateMeaning(d: Desk, id: nat, store: nat, actionId: string, canonical: seq<SourceRow>, checksum: string)
    requires id !in d.results
    ensures var e := Next(d, Calculate(id, store, actionId, canonical, checksum));
      && e.results.Keys == d.results.Keys + {id}
      && (forall other :: other in d.results ==> e.results[other] == d.results[other])
      && var r := e.results[id];
         && r.store == store && r.actionId == actionId && r.rows == RowsOf(canonical) && r.basisChecksum == checksum
         && (r.successful <==> forall i :: 0 <= i < |canonical| ==> !canonical[i].sourceGroup.Other?)
         && r.state == NotReviewed && r.snapshot.None? && r.acceptedChecksum == "" && r.reviewedAt == 0
         && r.confirmation == if Deactivates(r.rows) then Pending else NotRequired
  {
    PlansIff(RowsOf(canonical));
  }

  /** Acceptance fixes rows and checksum; a result with unconfirmed deactivations is only pending. */
  lemma AcceptMeaning(d: Desk, id: nat)
    requires id in d.results
    ensures var r, after := d.results[id], Next(d, Accept(id)).results;
      && (forall other :: other in d.results && other != id ==> other in after && after[other] == d.results[other])
      && id in after
      && after[id] == if !r.successful || r.state in {Declined, Stale} then r
                      else r.(state := if Deactivates(r.rows) && r.confirmation != Confirmed
                                       then PendingDeactivateConfirmation else Accepted,
                              snapshot := Some(Snapshot(r.rows, r.basisChecksum)), acceptedChecksum := r.basisChecksum,
                              reviewedAt := d.clock + 1)
  {
    PlansIff(d.results[id].rows);
  }

  /** Declining a successful result that is not stale drops what was accepted. */
  lemma DeclineMeaning(d: Desk, id: nat)
    requires id in d.results
    ensures var r, after := d.results[id], Next(d, Decline(id)).results;
      && (forall other :: other in d.results && other != id ==> other in after && after[other] == d.results[other])
      && id in after
      && after[id] == if !r.successful || r.state == Stale then r
                      else r.(state := Declined, snapshot := None, acceptedChecksum := "", reviewedAt := d.clock + 1)
  {
  }

  /** In a reachable state an upload is allowed exactly for accepted results of a basis with a checksum. */
  lemma UploadAllowedIff(commands: seq<Command>, id: nat)
    requires id in Run(EMPTY, commands).results
    ensures var r := Run(EMPTY, commands).results[id];
      UploadAllowed(r) <==> r.state == Accepted && r.basisChecksum != ""
  {
    RunKeepsInv(commands);
    assert ResultInv(Run(EMPTY, commands), id);
  }

  /** Confirmation of deactivations, in a reachable state: nothing without an accepted snapshot of some rows, not
      required without deactivations, and else accepted, whatever the state was. */
  lemma ConfirmMeaning(commands: seq<Command>, id: nat)
    requires id in Run(EMPTY, commands).results
    ensures var d := Run(EMPTY, commands);
      var r, after := d.results[id], Next(d, ConfirmDeactivation(id)).results;
      && (forall other :: other in d.results && other != id ==> other in after && after[other] == d.results[other])
      && id in after
      && after[id] == if r.snapshot.None? || r.rows == [] then r
                      else if !Deactivates(r.rows) then r.(confirmation := NotRequired)
                      else r.(confirmation := Confirmed, state := Accepted)
  {
    RunKeepsInv(commands);
    var d := Run(EMPTY, commands);
    assert ResultInv(d, id);
    PlansIff(d.results[id].rows);
  }

  /** The gate of an upload. */
  ghost predicate MayUpload(r: CalculationResult, addUpdateConfirmed: bool) {
    && r.state in {Accepted, PendingDeactivateConfirmation} && r.acceptedChecksum != "" && r.snapshot.Some?
    && var rows := r.snapshot.value.rows;
       && (Changes(rows) || Deactivates(rows)) && (Changes(rows) ==> addUpdateConfirmed)
       && (Deactivates(rows) ==> r.confirmation == Confirmed)
  }

  /** The gate sends a result back to pending exactly when only its deactivations are not confirmed. */
  ghost predicate SentBack(r: CalculationResult, addUpdateConfirmed: bool) {
    MayUpload(r.(confirmation := Confirmed), addUpdateConfirmed) && r.confirmation != Confirmed
    && Deactivates(r.snapshot.value.rows)
  }

  lemma UploadMeaning(r: CalculationResult, addUpdateConfirmed: bool)
    ensures Uploading(r, addUpdateConfirmed).1 <==> MayUpload(r, addUpdateConfirmed)
    ensures Uploading(r, addUpdateConfirmed).0
         == if SentBack(r, addUpdateConfirmed)
            then r.(state := PendingDeactivateConfirmation, confirmation := Pending) else r
    ensures UploadBasis(r) && UploadConfirmed(r, addUpdateConfirmed) <==> MayUpload(r, addUpdateConfirmed)
  {
    if r.snapshot.Some? { PlansIff(r.snapshot.value.rows); }
  }

  // ---------- the services ----------

  class ReviewDesk {
    var results: map<nat, CalculationResult>
    var clock: nat
    ghost var refreshes: seq<Refresh>
    ghost var revived: set<nat>

    ghost function State(): Desk
      reads this
    {
      Desk(results, clock, refreshes, revived)
    }

    constructor ()
      ensures State() == EMPTY
    {
      results, clock, refreshes, revived := map[], 0, [], {};
    }

    method AcceptResult(id: nat) returns (done: bool)
      modifies this
      ensures State() == Next(old(State()), Accept(id))
      ensures done <==> id in old(results) && old(results)[id].successful
                        && old(results)[id].state != Declined && old(results)[id].state != Stale
    {
      clock := clock + 1;
      if id !in results { return false; }
      var r := results[id];
      if !r.successful { return false; }
      if r.state == Declined || r.state == Stale { return false; }
      var snapshot := Snapshot(r.rows, r.basisChecksum);
      var state := if HasDeactivation(snapshot.rows) && r.confirmation != Confirmed
                   then PendingDeactivateConfirmation else Accepted;
      results := results[id := r.(state := state, reviewedAt := clock, acceptedChecksum := snapshot.basisChecksum,
                                  snapshot := Some(snapshot))];
      revived := revived - {id};
      return true;
    }

    method DeclineResult(id: nat) returns (done: bool)
      modifies this
      ensures State() == Next(old(State()), Decline(id))
      ensures done <==> id in old(results) && old(results)[id].successful && old(results)[id].state != Stale
    {
      clock := clock + 1;
      if id !in results || !results[id].successful || results[id].state == Stale { return false; }
      results := results[id := results[id].(state := Declined, reviewedAt := clock, acceptedChecksum := "",
                                            snapshot := None)];
      return true;
    }

    /** Marks the given results, in any order. */
    method MarkStale(ids: set<nat>) returns (count: nat)
      requires ids <= results.Keys
      modifies this`results
      ensures results == Marked(old(results), ids) && count == |ids|
    {
      count := 0;
      var done: set<nat> := {};
      while ids - done != {}
        invariant done <= ids && count == |done|
        invariant results == Marked(old(results), done)
        decreases ids - done
      {
        var id :| id in ids - done;
        results := results[id := results[id].(state := Stale)];
        done := done + {id};
        count := count + 1;
      }
      assert done == ids;
    }

    /** Marks every accepted or pending result the refresh covers; returns how many. */
    method MarkAcceptedResultsStale(store: nat, actionId: string) returns (count: nat)
      modifies this
      ensures State() == Next(old(State()), RefreshSources(store, actionId))
      ensures count == |Affected(old(results), store, actionId)|
    {
      clock := clock + 1;
      var f := Refresh(store, actionId, clock);
      MarkedAll(results, f);
      assert Covered(results, f) == Affected(results, store, actionId);
      count := MarkStale(Covered(results, f));
      refreshes := refreshes + [f];
    }

    method ConfirmDeactivateGroup(id: nat) returns (done: bool)
      modifies this
      ensures State() == Next(old(State()), ConfirmDeactivation(id))
      ensures done <==> id in old(results) && old(results)[id].snapshot.Some?
                        && var rows := old(results)[id].snapshot.value.rows;
                           rows != []
                           && forall row :: row in rows && row.plan == DeactivateFromAction ==>
                                row.deactivateReason.Some?
    {
      clock := clock + 1;
      if id !in results { return false; }
      var r := results[id];
      revived := if r.state == Stale && HasDeactivation(r.rows) then revived + {id} else revived;
      if r.snapshot.None? || r.snapshot.value.rows == [] { return false; }
      PlansIff(r.snapshot.value.rows);
      if !HasDeactivation(r.snapshot.value.rows) {
        results := results[id := r.(confirmation := NotRequired)];
        return true;
      }
      ReasonsPresentIff(r.snapshot.value.rows);
      if !ReasonsPresent(r.snapshot.value.rows) { return false; }
      results := results[id := r.(confirmation := Confirmed, state := Accepted)];
      return true;
    }

    /** The gate of an upload: an unconfirmed deactivation sends the result back to pending. */
    method UploadResult(id: nat, addUpdateConfirmed: bool) returns (proceeds: bool)
      modifies this
      ensures State() == Next(old(State()), Upload(id, addUpdateConfirmed))
      ensures proceeds <==> id in old(results) && MayUpload(old(results)[id], addUpdateConfirmed)
    {
      if id in results { UploadMeaning(results[id], addUpdateConfirmed); }
      clock := clock + 1;
      if id !in results { return false; }
      var r := results[id];
      assert results == results[id := r];
      if !UploadBasis(r) { return false; }
      var rows := r.snapshot.value.rows;
      if (HasPlan(rows, AddToAction) || HasPlan(rows, UpdateActionPrice)) && !addUpdateConfirmed { return false; }
      if HasDeactivation(rows) && r.confirmation != Confirmed {
        results := results[id := r.(state := PendingDeactivateConfirmation, confirmation := Pending)];
        return false;
      }
      return true;
    }
  }
}
