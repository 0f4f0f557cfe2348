/** What each operation service accepts and writes, in terms of the stored fields alone. */
module OperationContracts {
  import opened Common
  import opened OperationMetadata
  import opened OperationTypes
  import opened ReasonCodes
  import opened OperationSteps
  import opened OperationInvariants

  // ---------- what is asked of rows ----------

  ghost predicate InputOk(w: World, scenario: Scenario, i: InputSpec) {
    && i.version in w.versions && w.versions[i.version].store == scenario.store
    && w.versions[i.version].marketplace == scenario.marketplace && w.versions[i.version].module_ == scenario.module_
    && i.role != "" && |i.role| <= 64 && 0 <= i.ordinal <= 2147483647
  }

  ghost predicate InputsOk(w: World, scenario: Scenario, inputs: seq<InputSpec>) {
    (forall k :: 0 <= k < |inputs| ==> InputOk(w, scenario, inputs[k]))
    && forall k, m :: 0 <= k < m < |inputs| && inputs[k].role == inputs[m].role ==>
         inputs[k].ordinal != inputs[m].ordinal
  }

  ghost predicate ParamOk(p: ParamSpec) {
    p.code != "" && |p.code| <= 128 && |p.version| <= 128 && p.source in {"store", "system"}
    && p.value !in {"null", "\"\"", "[]", "{}"}
  }

  ghost predicate ParamsOk(params: seq<ParamSpec>) {
    (forall k :: 0 <= k < |params| ==> ParamOk(params[k]))
    && forall k, m :: 0 <= k < m < |params| ==> params[k].code != params[m].code
  }

  ghost predicate StoreOk(w: World, scenario: Scenario) {
    scenario.marketplace in {Wb, Ozon} && scenario.store in w.stores && w.stores[scenario.store] == scenario.marketplace
  }

  ghost predicate RunOk(s: State, scenario: Scenario, run: nat) { run in s.runs && s.runs[run].scenario == scenario }

  ghost predicate LogicOk(logic: string) { logic != "" && |logic| <= 128 }

  /** An operation that can still be started, completed or interrupted. */
  ghost predicate Unfinished(s: State, o: nat) {
    o in s.operations && s.operations[o].status in {Created, Running}
  }

  /** The status the caller's object shows does not end an operation of this kind. */
  ghost predicate ShowsOpen(kind: OperationKind, seen: Status) {
    seen !in if kind == Check then {NoErrors, WithWarnings, WithErrors, InterruptedFailed}
             else {Success, WithWarnings, WithError, InterruptedFailed}
  }

  ghost predicate CountsOk(r: ShellResult) { 0 <= r.errors <= 2147483647 && 0 <= r.warnings <= 2147483647 }

  /** A version of the operation's store, marketplace and module that no operation has as an output or result. */
  ghost predicate OutputOk(s: State, scenario: Scenario, v: nat) {
    && v in s.world.versions && s.world.versions[v].store == scenario.store
    && s.world.versions[v].marketplace == scenario.marketplace && s.world.versions[v].module_ == scenario.module_
    && forall o :: o in s.operations ==> v !in s.operations[o].outputs && s.operations[o].produced != Some(v)
  }

  ghost predicate ListingOk(w: World, scenario: Scenario, l: nat) {
    l in w.listings && w.listings[l].store == scenario.store && w.listings[l].marketplace == scenario.marketplace
  }

  ghost predicate DetailOk(w: World, scenario: Scenario, d: Detail) {
    && d.rowNo <= 2147483647 && |d.reason| <= 128 && |d.problem| <= 128
    && (d.reason != "" ==>
          && ("wb_" <= d.reason ==> d.reason in w.reasons.wb)
          && (scenario.marketplace == Ozon ==> d.reason in w.reasons.ozon))
    && (d.listing.Some? ==> ListingOk(w, scenario, d.listing.value))
  }

  lemma RowsOkIff(w: World, scenario: Scenario, inputs: seq<InputSpec>, params: seq<ParamSpec>)
    ensures InputsFit(w.versions, scenario, inputs) <==> InputsOk(w, scenario, inputs)
    ensures ParamsFit(params) <==> ParamsOk(params)
  {
    forall i: InputSpec ensures InputFits(w.versions, scenario, i) <==> InputOk(w, scenario, i) {
      InputOkIff(w, scenario, i);
    }
    forall p: ParamSpec ensures ParamFits(p) <==> ParamOk(p) { ParamOkIff(p); }
  }

  lemma InputOkIff(w: World, scenario: Scenario, i: InputSpec)
    ensures InputFits(w.versions, scenario, i) <==> InputOk(w, scenario, i)
  {
  }

  lemma ParamOkIff(p: ParamSpec)
    ensures ParamFits(p) <==> ParamOk(p)
  {
  }

  lemma OpenIff(s: State, o: nat)
    requires AllValid(s)
    ensures Open(s, o) <==> Unfinished(s, o)
  {
  }

  lemma SeenIff(s: State, o: nat, seen: Status)
    ensures SeenOpen(s, o, seen) <==> o in s.operations && ShowsOpen(s.operations[o].kind, seen)
  {
  }

  lemma ValidOf(s: State)
    requires Inv(s)
    ensures AllValid(s)
  {
    forall o | o in s.operations ensures ValidStatus(s.operations[o].kind, s.operations[o].status) {
      assert Clean(s, s.operations[o]);
    }
  }

  const WB_STEPS := {WbPricesDownload, WbPromotionsDownload, WbDiscountCalculation, WbDiscountUpload}

  /** The shape of every stored operation: a store of WB or Ozon, a run of the same scenario, a type and statuses by
      mode, a step code exactly for API operations, and a basis exactly for processes. */
  ghost predicate Shaped(s: State, op: Operation) {
    && StoreOk(s.world, op.scenario) && RunOk(s, op.scenario, op.run)
    && (op.kind == NotApplicable <==> op.scenario.mode == Api)
    && (op.kind != NotApplicable <==> op.step == NoStep)
    && (op.scenario.mode == Api && op.scenario.marketplace == Wb ==> op.step in WB_STEPS)
    && (op.scenario.mode == Api && op.scenario.marketplace == Ozon ==> op.step !in WB_STEPS)
    && op.status in (if op.kind == Check then {Created, Running, NoErrors, WithWarnings, WithErrors, InterruptedFailed}
                     else {Created, Running, Success, WithWarnings, WithError, InterruptedFailed})
    && (op.kind == Check ==> op.basis.None?)
    && (op.kind == Process ==>
          op.basis.Some? && op.basis.value in s.operations
          && var b := s.operations[op.basis.value];
             b.kind == Check && b.status in {NoErrors, WithWarnings} && b.errors == 0)
  }

  lemma AllShaped(s: State)
    requires Reachable(s)
    ensures forall o :: o in s.operations ==> Shaped(s, s.operations[o])
  {
    ReachableIsSound(s);
    forall o | o in s.operations ensures Shaped(s, s.operations[o]) { CleanIsShaped(s, s.operations[o]); }
  }

  lemma CleanIsShaped(s: State, op: Operation)
    requires Clean(s, op)
    ensures Shaped(s, op)
  {
  }

  // ---------- creation ----------

  /** The row of a new operation. */
  ghost function Fresh(scenario: Scenario, kind: OperationKind, step: StepCode, run: nat, logic: string,
                       basis: Option<nat>, inputs: seq<InputSpec>, params: seq<ParamSpec>): Operation {
    Operation(scenario, kind, step, run, logic, basis, Created, 0, 0, 0, inputs, params, [], {}, None)
  }

  /** A run of its own is made when none is given. */
  ghost predicate Added(s: State, t: State, scenario: Scenario, into: Option<nat>, op: Operation) {
    && t.operations == s.operations[s.nextOperation := op] && t.nextOperation == s.nextOperation + 1
    && t.confirmations == s.confirmations && t.world == s.world
    && (into.Some? ==> t.runs == s.runs && t.nextRun == s.nextRun && op.run == into.value)
    && (into.None? ==> t.runs == s.runs[s.nextRun := RunRow(scenario, RunCreated)] && t.nextRun == s.nextRun + 1
                       && op.run == s.nextRun)
  }

  lemma CreateRunMeaning(s: State, scenario: Scenario)
    ensures Step(s, CreateRun(scenario)).Ok? <==> StoreOk(s.world, scenario)
    ensures StoreOk(s.world, scenario) ==>
              Step(s, CreateRun(scenario)).value
              == s.(runs := s.runs[s.nextRun := RunRow(scenario, RunCreated)], nextRun := s.nextRun + 1)
  {
  }

  /** A check is created exactly by one who may, in Excel mode, for a store of its marketplace, in a run of the same
      scenario or one of its own, with fitting logic version, inputs and parameters. */
  lemma CreateCheckMeaning(s: State, q: Request, into: Option<nat>, allowed: bool)
    ensures var r := Step(s, CreateCheck(q, into, allowed));
      && (r.Ok? <==>
            && allowed && q.scenario.mode == Excel && StoreOk(s.world, q.scenario)
            && (into.Some? ==> RunOk(s, q.scenario, into.value)) && LogicOk(q.logic)
            && InputsOk(s.world, q.scenario, q.inputs) && ParamsOk(q.params))
      && (r.Ok? ==>
            Added(s, r.value, q.scenario, into,
                  Fresh(q.scenario, Check, NoStep, if into.Some? then into.value else s.nextRun, q.logic, None,
                        q.inputs,
                        q.params)))
  {
    RowsOkIff(s.world, q.scenario, q.inputs, q.params);
  }

  ghost predicate ApiStepOk(marketplace: Marketplace, step: StepCode) {
    step in if marketplace == Wb then WB_STEPS
            else {OzonConnectionCheck, OzonActionsDownload, OzonActiveProductsDownload, OzonCandidateProductsDownload,
                  OzonProductDataDownload, OzonElasticCalculation, OzonElasticUpload}
  }

  lemma ApiStepIff(scenario: Scenario, step: StepCode)
    requires scenario.marketplace in {Wb, Ozon} && scenario.mode == Api
    ensures StepFits(scenario, NotApplicable, step) <==> ApiStepOk(scenario.marketplace, step)
  {
  }

  lemma CreatingApiMeaning(s: State, scenario: Scenario, step: StepCode, logic: string, into: Option<nat>)
    ensures var r, api := CreatingApi(s, scenario, step, logic, into), scenario.(mode := Api);
      && (r.Ok? <==> StoreOk(s.world, scenario) && LogicOk(logic) && (into.Some? ==> RunOk(s, api, into.value))
                     && ApiStepOk(scenario.marketplace, step))
      && (r.Ok? ==>
            Added(s, r.value, api, into,
                  Fresh(api, NotApplicable, step, if into.Some? then into.value else s.nextRun, logic, None, [], [])))
  {
    var api := scenario.(mode := Api);
    RowsOkIff(s.world, api, [], []);
    if StoreOk(s.world, scenario) { ApiStepIff(api, step); }
  }

  /** An API operation is created exactly by one who may, for a step of its marketplace, likewise. */
  lemma CreateApiMeaning(s: State, scenario: Scenario, step: StepCode, logic: string, into: Option<nat>, allowed: bool)
    ensures var r, api := Step(s, CreateApi(scenario, step, logic, into, allowed)), scenario.(mode := Api);
      && (r.Ok? <==> allowed && StoreOk(s.world, scenario) && LogicOk(logic)
                     && (into.Some? ==> RunOk(s, api, into.value)) && ApiStepOk(scenario.marketplace, step))
      && (r.Ok? ==>
            Added(s, r.value, api, into,
                  Fresh(api, NotApplicable, step, if into.Some? then into.value else s.nextRun, logic, None, [], [])))
  {
    CreatingApiMeaning(s, scenario, step, logic, into);
  }

  /** The basis was completed without errors, and its metadata as read back is the request's. */
  ghost predicate BasisOk(s: State, q: Request, basis: nat) {
    basis in s.operations
    && var b := s.operations[basis];
       && b.kind == Check && b.status in {NoErrors, WithWarnings} && b.errors == 0
       && b.scenario == q.scenario && b.logic == q.logic
       && multiset(b.inputs) == multiset(q.inputs) && multiset(StoredTexts(b.params)) == multiset(Texts(q.params))
  }

  ghost predicate Warned(b: Operation) {
    b.warnings != 0
    && ((forall d :: d in b.details ==> d.level != WarningConfirmable && d.level != WarningInfo)
        || exists d :: d in b.details && d.level == WarningConfirmable)
  }

  lemma BasisOkIff(s: State, q: Request, basis: nat)
    requires AllUnique(s)
    ensures BasisOk(s, q, basis) <==> basis in s.operations && ActualFor(s.operations[basis], q)
  {
    if basis in s.operations {
      var b := s.operations[basis];
      assert RowsUnique(b);
      InputsCanonical(b.inputs, q.inputs);
      ParamsCanonical(b.params, q.params);
    }
  }

  /** The new process's row, in the run of its basis unless another is given. */
  ghost function FreshProcess(s: State, q: Request, basis: nat, into: Option<nat>): Operation
    requires basis in s.operations
  {
    Fresh(q.scenario, Process, NoStep, if into.Some? then into.value else s.operations[basis].run, q.logic, Some(basis),
          q.inputs, q.params)
  }

  ghost predicate ProcessRowsOk(s: State, q: Request, basis: nat, into: Option<nat>)
    requires basis in s.operations
  {
    && q.scenario.mode == Excel && StoreOk(s.world, q.scenario)
    && RunOk(s, q.scenario, if into.Some? then into.value else s.operations[basis].run)
    && LogicOk(q.logic) && InputsOk(s.world, q.scenario, q.inputs) && ParamsOk(q.params)
  }

  lemma ProcessRowsOkIff(s: State, q: Request, basis: nat, into: Option<nat>)
    requires basis in s.operations && SuccessfulCheck(s.operations[basis])
    ensures NewProcess(s, q, basis, into) == FreshProcess(s, q, basis, into)
    ensures Inserting(s, NewProcess(s, q, basis, into)).Ok? <==> ProcessRowsOk(s, q, basis, into)
    ensures Inserting(s, NewProcess(s, q, basis, into)).Ok? ==>
              Inserting(s, NewProcess(s, q, basis, into)).value == Put(s, FreshProcess(s, q, basis, into))
  {
    RowsOkIff(s.world, q.scenario, q.inputs, q.params);
  }

  lemma CreatingProcessIff(s: State, q: Request, basis: nat, into: Option<nat>, confirmed: bool)
    requires Inv(s)
    ensures var r := CreatingProcess(s, q, basis, into, confirmed);
      && (r.Ok? <==> BasisOk(s, q, basis) && (Warned(s.operations[basis]) ==> confirmed)
                     && ProcessRowsOk(s, q, basis, into))
      && (r.Ok? ==>
            r.value == Put(s, FreshProcess(s, q, basis, into)).(
              confirmations := s.confirmations + if confirmed then [(basis, s.nextOperation)] else []))
  {
    BasisOkIff(s, q, basis);
    assert s.confirmations + [] == s.confirmations;
    if basis in s.operations && ActualFor(s.operations[basis], q) {
      NeedsConfirmationIff(s.operations[basis]);
      ProcessRowsOkIff(s, q, basis, into);
    }
  }

  /** A process is created exactly by one who may, on a basis actual for the request, confirmed where it warns, in the
      run of the basis unless another of the scenario is given; a confirmation is recorded exactly when one was
      given. */
  lemma CreateProcessMeaning(s: State, q: Request, basis: nat, into: Option<nat>, confirmed: bool, allowed: bool)
    requires Inv(s)
    ensures var r := Step(s, CreateProcess(q, basis, into, confirmed, allowed));
      && (r.Ok? <==> allowed && BasisOk(s, q, basis) && (Warned(s.operations[basis]) ==> confirmed)
                     && ProcessRowsOk(s, q, basis, into))
      && (r.Ok? ==>
            r.value == s.(operations := s.operations[s.nextOperation := FreshProcess(s, q, basis, into)],
                          nextOperation := s.nextOperation + 1,
                          confirmations := s.confirmations + if confirmed then [(basis, s.nextOperation)] else []))
  {
    CreatingProcessIff(s, q, basis, into, confirmed);
  }

  // ---------- progress ----------

  /** The operation's row is replaced, and its run's status where one is given. */
  ghost function Written(s: State, o: nat, op: Operation, run: Option<RunStatus>): State
    requires o in s.operations
  {
    var r := s.operations[o].run;
    s.(operations := s.operations[o := op],
       runs := if run.Some? && r in s.runs then s.runs[r := s.runs[r].(status := run.value)] else s.runs)
  }

  lemma StartMeaning(s: State, o: nat)
    requires Inv(s)
    ensures Step(s, Start(o)).Ok? <==> Unfinished(s, o)
    ensures Unfinished(s, o) ==>
              Step(s, Start(o)).value == Written(s, o, s.operations[o].(status := Running), Some(RunRunning))
  {
    ValidOf(s);
    OpenIff(s, o);
  }

  lemma InterruptMeaning(s: State, o: nat, note: Option<nat>)
    requires Inv(s)
    ensures Step(s, Interrupt(o, note)).Ok? <==> Unfinished(s, o)
    ensures Unfinished(s, o) ==>
              var op := s.operations[o].(status := InterruptedFailed);
              Step(s, Interrupt(o, note)).value
              == Written(s, o, if note.Some? then op.(summary := note.value) else op, Some(RunInterrupted))
  {
    ValidOf(s);
    OpenIff(s, o);
  }

  /** Whether all operations of the run have ended once this one has. */
  ghost predicate LastOfRun(s: State, o: nat)
    requires o in s.operations
  {
    forall other :: other in s.operations && other != o && s.operations[other].run == s.operations[o].run ==>
      s.operations[other].status !in {Created, Running}
  }

  ghost function Ended(s: State, o: nat, op: Operation): State
    requires o in s.operations
  {
    Written(s, o, op, if LastOfRun(s, o) then Some(RunCompleted) else None)
  }

  lemma ClosedIff(s: State, o: nat, op: Operation)
    requires AllValid(s) && o in s.operations && op.run == s.operations[o].run && Terminal(op)
    ensures Closed(Edit(s, o, op), op.run) == Ended(s, o, op)
  {
    var t := Edit(s, o, op);
    assert AllTerminal(t, op.run) <==> LastOfRun(s, o) by {
      if AllTerminal(t, op.run) {
        forall other | other in s.operations && other != o && s.operations[other].run == s.operations[o].run
          ensures s.operations[other].status !in {Created, Running} {
          assert Terminal(t.operations[other]);
        }
      }
    }
  }

  /** A completed check says by its status which of errors and warnings it reports. */
  lemma CompleteCheckMeaning(s: State, o: nat, r: ShellResult)
    requires Inv(s)
    ensures Step(s, CompleteCheck(o, r)).Ok? <==> Unfinished(s, o) && s.operations[o].kind == Check && CountsOk(r)
    ensures Step(s, CompleteCheck(o, r)).Ok? ==>
              var status := if r.errors > 0 then WithErrors else if r.warnings > 0 then WithWarnings else NoErrors;
              Step(s, CompleteCheck(o, r)).value
              == Ended(s, o, s.operations[o].(status := status, summary := r.summary, errors := r.errors,
                                              warnings := r.warnings))
  {
    ValidOf(s);
    OpenIff(s, o);
    if Step(s, CompleteCheck(o, r)).Ok? { ClosedIff(s, o, Counted(s.operations[o], CheckOutcome(r), r)); }
  }

  lemma CompleteProcessMeaning(s: State, o: nat, r: ShellResult)
    requires Inv(s)
    ensures Step(s, CompleteProcess(o, r)).Ok? <==>
              && Unfinished(s, o) && s.operations[o].kind == Process && CountsOk(r)
              && (r.output.Some? ==> OutputOk(s, s.operations[o].scenario, r.output.value))
    ensures Step(s, CompleteProcess(o, r)).Ok? ==>
              var op := s.operations[o];
              var status := if r.errors > 0 then WithError else if r.warnings > 0 then WithWarnings else Success;
              Step(s, CompleteProcess(o, r)).value
              == Ended(s, o, op.(status := status, summary := r.summary, errors := r.errors, warnings := r.warnings,
                                 produced := r.output,
                                 outputs := if r.output.Some? then op.outputs + {r.output.value} else op.outputs))
  {
    ValidOf(s);
    OpenIff(s, o);
    if Step(s, CompleteProcess(o, r)).Ok? {
      var op := s.operations[o];
      assert op.outputs + {} == op.outputs;
      ClosedIff(s, o, Counted(op, ProcessOutcome(r), r).(outputs := op.outputs + OutputSet(r.output),
                                                         produced := r.output));
    }
  }

  lemma CompleteApiMeaning(s: State, o: nat, status: Status, r: ShellResult)
    requires Inv(s)
    ensures Step(s, CompleteApi(o, status, r)).Ok? <==>
              && Unfinished(s, o) && s.operations[o].kind == NotApplicable && CountsOk(r)
              && status in {Success, WithWarnings, WithError, InterruptedFailed}
              && (r.output.Some? ==> OutputOk(s, s.operations[o].scenario, r.output.value))
    ensures Step(s, CompleteApi(o, status, r)).Ok? ==>
              var op := s.operations[o];
              Step(s, CompleteApi(o, status, r)).value
              == Ended(s, o, op.(status := status, summary := r.summary, errors := r.errors, warnings := r.warnings,
                                 outputs := if r.output.Some? then op.outputs + {r.output.value} else op.outputs))
  {
    ValidOf(s);
    OpenIff(s, o);
    if Step(s, CompleteApi(o, status, r)).Ok? {
      var op := s.operations[o];
      assert op.outputs + {} == op.outputs;
      ClosedIff(s, o, Counted(op, status, r).(outputs := op.outputs + OutputSet(r.output)));
    }
  }

  // ---------- rows of an operation ----------

  lemma AttachInputMeaning(s: State, o: nat, seen: Status, i: InputSpec)
    ensures Step(s, AttachInput(o, seen, i)).Ok? <==>
              && o in s.operations && ShowsOpen(s.operations[o].kind, seen)
              && InputOk(s.world, s.operations[o].scenario, i)
              && forall other :: other in s.operations[o].inputs && other.role == i.role ==> other.ordinal != i.ordinal
    ensures Step(s, AttachInput(o, seen, i)).Ok? ==>
              var op := s.operations[o];
              Step(s, AttachInput(o, seen, i)).value
              == s.(operations := s.operations[o := op.(inputs := op.inputs + [i])])
  {
    SeenIff(s, o, seen);
    if o in s.operations { InputOkIff(s.world, s.operations[o].scenario, i); }
  }

  lemma AttachParameterMeaning(s: State, o: nat, seen: Status, p: ParamSpec)
    ensures Step(s, AttachParameter(o, seen, p)).Ok? <==>
              && o in s.operations && ShowsOpen(s.operations[o].kind, seen) && ParamOk(p)
              && forall other :: other in s.operations[o].params ==> other.code != p.code
    ensures Step(s, AttachParameter(o, seen, p)).Ok? ==>
              var op := s.operations[o];
              Step(s, AttachParameter(o, seen, p)).value
              == s.(operations := s.operations[o := op.(params := op.params + [p])])
  {
    SeenIff(s, o, seen);
    ParamOkIff(p);
  }

  lemma AddDetailMeaning(s: State, o: nat, seen: Status, d: Detail)
    ensures Step(s, AddDetail(o, seen, d)).Ok? <==>
              && o in s.operations && ShowsOpen(s.operations[o].kind, seen)
              && DetailOk(s.world, s.operations[o].scenario, d)
              && forall other :: other in s.operations[o].details ==>
                   other.rowNo != d.rowNo || other.reason != d.reason || other.problem != d.problem
    ensures Step(s, AddDetail(o, seen, d)).Ok? ==>
              var op := s.operations[o];
              Step(s, AddDetail(o, seen, d)).value
              == s.(operations := s.operations[o := op.(details := op.details + [d])])
  {
    SeenIff(s, o, seen);
  }

  lemma AddOutputMeaning(s: State, o: nat, seen: Status, v: nat)
    ensures Step(s, AddOutput(o, seen, v)).Ok? <==>
              o in s.operations && ShowsOpen(s.operations[o].kind, seen) && OutputOk(s, s.operations[o].scenario, v)
    ensures Step(s, AddOutput(o, seen, v)).Ok? ==>
              var op := s.operations[o];
              Step(s, AddOutput(o, seen, v)).value
              == s.(operations := s.operations[o := op.(outputs := op.outputs + {v})])
  {
    SeenIff(s, o, seen);
  }

  lemma ConfirmMeaning(s: State, check: nat, process: nat, seen: Status)
    ensures Step(s, Confirm(check, process, seen)).Ok? <==>
              && check in s.operations && s.operations[check].kind == Check
              && process in s.operations && s.operations[process].kind == Process && ShowsOpen(Process, seen)
              && s.operations[process].basis == Some(check)
    ensures Step(s, Confirm(check, process, seen)).Ok? ==>
              Step(s, Confirm(check, process, seen)).value
              == s.(confirmations := s.confirmations + [(check, process)])
  {
    SeenIff(s, process, seen);
  }

  lemma EnrichDetailMeaning(s: State, o: nat, i: nat, listing: nat)
    ensures Step(s, EnrichDetail(o, i, listing)).Ok? <==>
              && o in s.operations && i < |s.operations[o].details| && s.operations[o].details[i].listing.None?
              && ListingOk(s.world, s.operations[o].scenario, listing)
    ensures Step(s, EnrichDetail(o, i, listing)).Ok? ==>
              var op := s.operations[o];
              var details := op.details[i := op.details[i].(listing := Some(listing))];
              Step(s, EnrichDetail(o, i, listing)).value
              == s.(operations := s.operations[o := op.(details := details)])
  {
  }

  lemma SaveSummaryMeaning(s: State, o: nat, summary: nat)
    ensures Step(s, SaveSummary(o, summary)).Ok? <==>
              o in s.operations && s.operations[o].step == OzonElasticCalculation
    ensures Step(s, SaveSummary(o, summary)).Ok? ==>
              Step(s, SaveSummary(o, summary)).value
              == s.(operations := s.operations[o := s.operations[o].(summary := summary)])
  {
  }
}
