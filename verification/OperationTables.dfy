/** The tables of runs and operations, and the service calls that update them. */
module OperationTables {
  import opened Common
  import opened OperationMetadata
  import opened OperationTypes
  import opened OperationSteps
  import opened OperationInvariants
  import opened OperationRuns

  lemma PlacesSoFar(inputs: seq<InputSpec>, n: nat)
    requires n < |inputs| && DistinctPlaces(inputs[..n])
    ensures DistinctPlaces(inputs[..n + 1]) <==> PlaceFree(inputs[..n], inputs[n])
  {
    assert forall k :: 0 <= k < n ==> inputs[..n + 1][k] == inputs[..n][k];
    assert inputs[..n + 1][n] == inputs[n];
    if DistinctPlaces(inputs[..n + 1]) {
      forall k | 0 <= k < n
        ensures inputs[..n][k].role != inputs[n].role || inputs[..n][k].ordinal != inputs[n].ordinal {
        assert inputs[..n + 1][k].role != inputs[..n + 1][n].role
               || inputs[..n + 1][k].ordinal != inputs[..n + 1][n].ordinal;
      }
    }
  }

  lemma CodesSoFar(params: seq<ParamSpec>, n: nat)
    requires n < |params| && DistinctCodes(params[..n])
    ensures DistinctCodes(params[..n + 1]) <==> CodeFree(params[..n], params[n])
  {
    assert forall k :: 0 <= k < n ==> params[..n + 1][k] == params[..n][k];
    assert params[..n + 1][n] == params[n];
    if DistinctCodes(params[..n + 1]) {
      forall k | 0 <= k < n ensures params[..n][k].code != params[n].code {
        assert params[..n + 1][k].code != params[..n + 1][n].code;
      }
    }
  }

  lemma PlacesOfPrefix(inputs: seq<InputSpec>, n: nat)
    requires n <= |inputs| && DistinctPlaces(inputs)
    ensures DistinctPlaces(inputs[..n])
  {
  }

  lemma CodesOfPrefix(params: seq<ParamSpec>, n: nat)
    requires n <= |params| && DistinctCodes(params)
    ensures DistinctCodes(params[..n])
  {
  }

  class Tables {
    const world: World
    var runs: map<nat, RunRow>
    var operations: map<nat, Operation>
    var confirmations: seq<(nat, nat)>
    var nextRun: nat
    var nextOperation: nat

    function Contents(): State
      reads this
    {
      State(world, runs, operations, confirmations, nextRun, nextOperation)
    }

    ghost predicate Valid()
      reads this
    {
      Reachable(Contents())
    }

    constructor (world: World)
      ensures Valid() && Contents() == Initial(world)
    {
      this.world := world;
      runs, operations, confirmations, nextRun, nextOperation := map[], map[], [], 1, 1;
      new;
      assert ReachedBy(Contents(), world, []);
    }

    // ---------- creation ----------

    /** Links the inputs one after the other; stops at the first that is refused. */
    method AttachInputs(o: nat, inputs: seq<InputSpec>) returns (attached: bool)
      requires o in operations && operations[o].inputs == []
      modifies this`operations
      ensures attached == InputsFit(world.versions, old(operations)[o].scenario, inputs)
      ensures attached ==> operations == old(operations)[o := old(operations)[o].(inputs := inputs)]
    {
      var op := operations[o];
      for n := 0 to |inputs|
        invariant operations == old(operations)[o := op.(inputs := inputs[..n])]
        invariant InputsFit(world.versions, op.scenario, inputs[..n])
      {
        PlacesSoFar(inputs, n);
        if !InputFits(world.versions, op.scenario, inputs[n]) || !PlaceFree(operations[o].inputs, inputs[n]) {
          if DistinctPlaces(inputs) { PlacesOfPrefix(inputs, n + 1); }
          return false;
        }
        assert inputs[..n + 1] == inputs[..n] + [inputs[n]];
        operations := operations[o := operations[o].(inputs := operations[o].inputs + [inputs[n]])];
      }
      assert inputs[..|inputs|] == inputs;
      return true;
    }

    method AttachParameters(o: nat, params: seq<ParamSpec>) returns (attached: bool)
      requires o in operations && operations[o].params == []
      modifies this`operations
      ensures attached == ParamsFit(params)
      ensures attached ==> operations == old(operations)[o := old(operations)[o].(params := params)]
    {
      var op := operations[o];
      for n := 0 to |params|
        invariant operations == old(operations)[o := op.(params := params[..n])]
        invariant ParamsFit(params[..n])
      {
        CodesSoFar(params, n);
        if !ParamFits(params[n]) || !CodeFree(operations[o].params, params[n]) {
          if DistinctCodes(params) { CodesOfPrefix(params, n + 1); }
          return false;
        }
        assert params[..n + 1] == params[..n] + [params[n]];
        operations := operations[o := operations[o].(params := operations[o].params + [params[n]])];
      }
      assert params[..|params|] == params;
      return true;
    }

    /** Saves an operation and then its rows; a refused row takes the operation back with it. */
    method Insert(op: Operation) returns (id: Result<nat>)
      requires op.details == [] && nextOperation !in operations
      modifies this`operations, this`nextOperation
      ensures id == if Inserting(old(Contents()), op).Ok? then Ok(old(nextOperation)) else Raised
      ensures Contents() == if id.Ok? then Put(old(Contents()), op) else old(Contents())
    {
      var saved, o := operations, nextOperation;
      if !Clean(Contents(), op) || !LogicFits(op.logic) { return Raised; }
      operations := operations[o := op.(inputs := [], params := [])];
      var inputsAttached := AttachInputs(o, op.inputs);
      if !inputsAttached {
        operations := saved;
        return Raised;
      }
      var paramsAttached := AttachParameters(o, op.params);
      if !paramsAttached {
        operations := saved;
        return Raised;
      }
      assert operations == saved[o := op];
      nextOperation := o + 1;
      return Ok(o);
    }

    /** Creates a run for the scenario unless one is given, and inserts the operation made for it. */
    method InsertIntoRun(scenario: Scenario, into: Option<nat>, op: Operation) returns (id: Result<nat>)
      requires op.details == [] && nextOperation !in operations && nextRun !in runs
      requires op.scenario == scenario && op.run == WithRun(Contents(), scenario, into).1
      modifies this
      ensures id == if Inserting(WithRun(old(Contents()), scenario, into).0, op).Ok? then Ok(old(nextOperation))
                    else Raised
      ensures Contents() == if id.Ok? then Put(WithRun(old(Contents()), scenario, into).0, op) else old(Contents())
    {
      var savedRuns, savedNext := runs, nextRun;
      if into.None? {
        if !StoreFits(world.stores, scenario) { return Raised; }
        runs := runs[nextRun := RunRow(scenario, RunCreated)];
        nextRun := nextRun + 1;
      }
      id := Insert(op);
      if id.Raised? { runs, nextRun := savedRuns, savedNext; }
    }

    method CreateRunRow(scenario: Scenario) returns (id: Result<nat>)
      requires Valid()
      modifies this
      ensures Valid() && Contents() == Next(old(Contents()), CreateRun(scenario))
      ensures id.Ok? <==> Step(old(Contents()), CreateRun(scenario)).Ok?
    {
      NextReachable(Contents(), CreateRun(scenario));
      if !StoreFits(world.stores, scenario) { return Raised; }
      var r := nextRun;
      runs, nextRun := runs[r := RunRow(scenario, RunCreated)], nextRun + 1;
      return Ok(r);
    }

    method CreateCheckOperation(q: Request, into: Option<nat>, allowed: bool) returns (id: Result<nat>)
      requires Valid()
      modifies this
      ensures Valid() && Contents() == Next(old(Contents()), CreateCheck(q, into, allowed))
      ensures id == if Step(old(Contents()), CreateCheck(q, into, allowed)).Ok? then Ok(old(nextOperation)) else Raised
    {
      NextReachable(Contents(), CreateCheck(q, into, allowed));
      NextIdFree(Contents());
      if !allowed { return Raised; }
      var r := if into.Some? then into.value else nextRun;
      id := InsertIntoRun(q.scenario, into, NewOperation(q.scenario, Check, NoStep, r, q.logic, None, q.inputs,
                                                         q.params));
    }

    method CreateProcessOperation(q: Request, basis: nat, into: Option<nat>, confirmed: bool,
                                  allowed: bool) returns (id: Result<nat>)
      requires Valid()
      modifies this
      ensures Valid() && Contents() == Next(old(Contents()), CreateProcess(q, basis, into, confirmed, allowed))
      ensures id == if Step(old(Contents()), CreateProcess(q, basis, into, confirmed, allowed)).Ok?
                      then Ok(old(nextOperation)) else Raised
    {
      NextReachable(Contents(), CreateProcess(q, basis, into, confirmed, allowed));
      NextIdFree(Contents());
      if !allowed || basis !in operations { return Raised; }
      var check := operations[basis];
      if !ActualFor(check, q) { return Raised; }
      if NeedsConfirmation(check) && !confirmed { return Raised; }
      var r := if into.Some? then into.value else check.run;
      id := Insert(NewOperation(q.scenario, Process, NoStep, r, q.logic, Some(basis), q.inputs, q.params));
      if id.Ok? && confirmed { confirmations := confirmations + [(basis, id.value)]; }
    }

    method CreateApiOperation(scenario: Scenario, step: StepCode, logic: string, into: Option<nat>,
                              allowed: bool) returns (id: Result<nat>)
      requires Valid()
      modifies this
      ensures Valid() && Contents() == Next(old(Contents()), CreateApi(scenario, step, logic, into, allowed))
      ensures id == if Step(old(Contents()), CreateApi(scenario, step, logic, into, allowed)).Ok?
                      then Ok(old(nextOperation)) else Raised
    {
      NextReachable(Contents(), CreateApi(scenario, step, logic, into, allowed));
      NextIdFree(Contents());
      if !allowed { return Raised; }
      var api := scenario.(mode := Api);
      var r := if into.Some? then into.value else nextRun;
      id := InsertIntoRun(api, into, NewOperation(api, NotApplicable, step, r, logic, None, [], []));
    }

    // ---------- status steps ----------

    method WriteRunStatus(r: nat, status: RunStatus)
      modifies this`runs
      ensures Contents() == SetRun(old(Contents()), r, status)
    {
      if r in runs { runs := runs[r := runs[r].(status := status)]; }
    }

    /** Looks at the run's operations one by one until an open one turns up. */
    method CloseRunIfAllTerminal(r: nat)
      modifies this`runs
      ensures Contents() == Closed(old(Contents()), r)
    {
      var mine := set o | o in operations && operations[o].run == r;
      var done: set<nat> := {};
      while mine - done != {}
        invariant done <= mine && forall o :: o in done ==> Terminal(operations[o])
        invariant runs == old(runs)
        decreases mine - done
      {
        var o :| o in mine - done;
        if !Terminal(operations[o]) { return; }
        done := done + {o};
      }
      AllDone(mine, done);
      assert forall o :: o in operations && operations[o].run == r ==> o in done;
      WriteRunStatus(r, RunCompleted);
    }

    method StartOperation(o: nat) returns (started: bool)
      requires Valid()
      modifies this
      ensures Valid() && Contents() == Next(old(Contents()), Start(o)) && started == Step(old(Contents()), Start(o)).Ok?
    {
      NextReachable(Contents(), Start(o));
      if o !in operations || Terminal(operations[o]) { return false; }
      operations := operations[o := operations[o].(status := Running)];
      WriteRunStatus(operations[o].run, RunRunning);
      return true;
    }

    method CompleteCheckOperation(o: nat, r: ShellResult) returns (completed: bool)
      requires Valid()
      modifies this
      ensures Valid() && Contents() == Next(old(Contents()), CompleteCheck(o, r))
      ensures completed == Step(old(Contents()), CompleteCheck(o, r)).Ok?
    {
      NextReachable(Contents(), CompleteCheck(o, r));
      if o !in operations || !operations[o].kind.Check? || Terminal(operations[o]) || !Counts(r) { return false; }
      var status := NoErrors;
      if r.errors != 0 {
        status := WithErrors;
      } else if r.warnings != 0 {
        status := WithWarnings;
      }
      operations := operations[o := operations[o].(status := status, summary := r.summary, errors := r.errors,
                                                   warnings := r.warnings)];
      CloseRunIfAllTerminal(operations[o].run);
      return true;
    }

    /** Whether a result's file can become an output of the operation. */
    method OutputAccepted(o: nat, output: Option<nat>) returns (accepted: bool)
      requires o in operations
      ensures accepted == OutputFits(Contents(), operations[o].scenario, output)
    {
      if output.None? { return true; }
      var v, scenario := output.value, operations[o].scenario;
      if v !in world.versions
         || world.versions[v] != FileScope(scenario.store, scenario.marketplace, scenario.module_) {
        return false;
      }
      accepted := forall p | p in operations :: v !in operations[p].outputs && operations[p].produced != Some(v);
    }

    method CompleteProcessOperation(o: nat, r: ShellResult) returns (completed: bool)
      requires Valid()
      modifies this
      ensures Valid() && Contents() == Next(old(Contents()), CompleteProcess(o, r))
      ensures completed == Step(old(Contents()), CompleteProcess(o, r)).Ok?
    {
      NextReachable(Contents(), CompleteProcess(o, r));
      if o !in operations || !operations[o].kind.Process? || Terminal(operations[o]) || !Counts(r) { return false; }
      var accepted := OutputAccepted(o, r.output);
      if !accepted { return false; }
      var op := operations[o].(summary := r.summary, errors := r.errors, warnings := r.warnings, produced := r.output);
      if r.output.Some? { op := op.(outputs := op.outputs + {r.output.value}); }
      if r.errors != 0 {
        op := op.(status := WithError);
      } else if r.warnings != 0 {
        op := op.(status := WithWarnings);
      } else {
        op := op.(status := Success);
      }
      FoldedProcess(operations[o], r, op);
      operations := operations[o := op];
      CloseRunIfAllTerminal(op.run);
      return true;
    }

    method CompleteApiOperation(o: nat, status: Status, r: ShellResult) returns (completed: bool)
      requires Valid()
      modifies this
      ensures Valid() && Contents() == Next(old(Contents()), CompleteApi(o, status, r))
      ensures completed == Step(old(Contents()), CompleteApi(o, status, r)).Ok?
    {
      NextReachable(Contents(), CompleteApi(o, status, r));
      if o !in operations || !operations[o].kind.NotApplicable? || Terminal(operations[o]) || !Counts(r) {
        return false;
      }
      if !status.Success? && !status.WithWarnings? && !status.WithError? && !status.InterruptedFailed? { return false; }
      var accepted := OutputAccepted(o, r.output);
      if !accepted { return false; }
      var op := operations[o].(status := status, summary := r.summary, errors := r.errors, warnings := r.warnings);
      op := op.(outputs := op.outputs + OutputSet(r.output));
      operations := operations[o := op];
      CloseRunIfAllTerminal(op.run);
      return true;
    }

    /** The note becomes the summary, unless it is empty. */
    method MarkInterruptedFailed(o: nat, note: Option<nat>) returns (marked: bool)
      requires Valid()
      modifies this
      ensures Valid() && Contents() == Next(old(Contents()), Interrupt(o, note))
              && marked == Step(old(Contents()), Interrupt(o, note)).Ok?
    {
      NextReachable(Contents(), Interrupt(o, note));
      if o !in operations || Terminal(operations[o]) { return false; }
      var op := operations[o].(status := InterruptedFailed);
      if note.Some? { op := op.(summary := note.value); }
      operations := operations[o := op];
      WriteRunStatus(operations[o].run, RunInterrupted);
      return true;
    }

    // ---------- any step, and executors ----------

    method AttachInputRow(o: nat, seen: Status, i: InputSpec)
      requires Valid()
      modifies this
      ensures Valid() && Contents() == Next(old(Contents()), AttachInput(o, seen, i))
    {
      NextReachable(Contents(), AttachInput(o, seen, i));
      if o !in operations || TerminalStatus(operations[o].kind, seen) { return; }
      var op := operations[o];
      if !InputFits(world.versions, op.scenario, i) || !PlaceFree(op.inputs, i) { return; }
      operations := operations[o := op.(inputs := op.inputs + [i])];
    }

    method AttachParameterRow(o: nat, seen: Status, p: ParamSpec)
      requires Valid()
      modifies this
      ensures Valid() && Contents() == Next(old(Contents()), AttachParameter(o, seen, p))
    {
      NextReachable(Contents(), AttachParameter(o, seen, p));
      if o !in operations || TerminalStatus(operations[o].kind, seen) { return; }
      var op := operations[o];
      if !ParamFits(p) || !CodeFree(op.params, p) { return; }
      operations := operations[o := op.(params := op.params + [p])];
    }

    method AddDetailRow(o: nat, seen: Status, d: Detail)
      requires Valid()
      modifies this
      ensures Valid() && Contents() == Next(old(Contents()), AddDetail(o, seen, d))
    {
      NextReachable(Contents(), AddDetail(o, seen, d));
      if o !in operations || TerminalStatus(operations[o].kind, seen) { return; }
      var op := operations[o];
      if !DetailFree(op.details, d) || !ListingFits(world, op.scenario, d.listing)
         || !DetailTextFits(world, op.scenario, d) {
        return;
      }
      operations := operations[o := op.(details := op.details + [d])];
    }

    method AddOutputRow(o: nat, seen: Status, v: nat)
      requires Valid()
      modifies this
      ensures Valid() && Contents() == Next(old(Contents()), AddOutput(o, seen, v))
    {
      NextReachable(Contents(), AddOutput(o, seen, v));
      if o !in operations || TerminalStatus(operations[o].kind, seen) { return; }
      var accepted := OutputAccepted(o, Some(v));
      if !accepted { return; }
      operations := operations[o := operations[o].(outputs := operations[o].outputs + {v})];
    }

    method ConfirmWarnings(check: nat, process: nat, seen: Status)
      requires Valid()
      modifies this
      ensures Valid() && Contents() == Next(old(Contents()), Confirm(check, process, seen))
    {
      NextReachable(Contents(), Confirm(check, process, seen));
      if check !in operations || !operations[check].kind.Check? { return; }
      if process !in operations || TerminalStatus(operations[process].kind, seen) { return; }
      if !operations[process].kind.Process? || operations[process].basis != Some(check) { return; }
      confirmations := confirmations + [(check, process)];
    }

    method SetDetailListing(o: nat, i: nat, listing: nat)
      requires Valid()
      modifies this
      ensures Valid() && Contents() == Next(old(Contents()), EnrichDetail(o, i, listing))
    {
      NextReachable(Contents(), EnrichDetail(o, i, listing));
      if o !in operations || i >= |operations[o].details| || operations[o].details[i].listing.Some? { return; }
      if !ListingFits(world, operations[o].scenario, Some(listing)) { return; }
      var op := operations[o];
      operations := operations[o := op.(details := op.details[i := op.details[i].(listing := Some(listing))])];
    }

    method SaveReviewSummary(o: nat, summary: nat)
      requires Valid()
      modifies this
      ensures Valid() && Contents() == Next(old(Contents()), SaveSummary(o, summary))
    {
      NextReachable(Contents(), SaveSummary(o, summary));
      if o !in operations || !operations[o].step.OzonElasticCalculation? { return; }
      operations := operations[o := operations[o].(summary := summary)];
    }

    method Perform(c: Command)
      requires Valid()
      modifies this
      ensures Valid() && Contents() == Next(old(Contents()), c)
    {
      match c {
        case CreateRun(scenario) => var _ := CreateRunRow(scenario);
        case CreateCheck(q, into, allowed) => var _ := CreateCheckOperation(q, into, allowed);
        case CreateProcess(q, basis, into, confirmed, allowed) =>
          var _ := CreateProcessOperation(q, basis, into, confirmed, allowed);
        case CreateApi(scenario, step, logic, into, allowed) =>
          var _ := CreateApiOperation(scenario, step, logic, into, allowed);
        case Start(o) => var _ := StartOperation(o);
        case CompleteCheck(o, r) => var _ := CompleteCheckOperation(o, r);
        case CompleteProcess(o, r) => var _ := CompleteProcessOperation(o, r);
        case CompleteApi(o, status, r) => var _ := CompleteApiOperation(o, status, r);
        case Interrupt(o, note) => var _ := MarkInterruptedFailed(o, note);
        case AttachInput(o, seen, i) => AttachInputRow(o, seen, i);
        case AttachParameter(o, seen, p) => AttachParameterRow(o, seen, p);
        case AddDetail(o, seen, d) => AddDetailRow(o, seen, d);
        case AddOutput(o, seen, v) => AddOutputRow(o, seen, v);
        case Confirm(check, process, seen) => ConfirmWarnings(check, process, seen);
        case EnrichDetail(o, i, listing) => SetDetailListing(o, i, listing);
        case SaveSummary(o, summary) => SaveReviewSummary(o, summary);
      }
    }

    method PerformAll(commands: seq<Command>)
      requires Valid()
      modifies this
      ensures Valid() && Contents() == OperationSteps.Run(old(Contents()), commands)
    {
      for n := 0 to |commands|
        invariant Valid() && Contents() == OperationSteps.Run(old(Contents()), commands[..n])
      {
        assert commands[..n + 1][..n] == commands[..n];
        Perform(commands[n]);
      }
      assert commands[..|commands|] == commands;
    }

    /** Compares the query's rows with the request, newest first, and stops at the first that is actual. */
    method FindActualSuccessfulCheck(q: Request) returns (found: Option<nat>)
      ensures found == FindActual(Contents(), q)
    {
      ActualAreCandidates(Contents(), q);
      var ids := Ordered(Candidates(Contents(), q));
      var n := |ids|;
      while n > 0
        invariant 0 <= n <= |ids| && forall k :: n <= k < |ids| ==> ids[k] !in Actual(Contents(), q)
      {
        n := n - 1;
        var o := ids[n];
        assert o in Candidates(Contents(), q);
        if ActualFor(operations[o], q) {
          LastIsNewest(Actual(Contents(), q), ids, n);
          return Some(o);
        }
      }
      assert forall o :: o in Actual(Contents(), q) ==> o in ids;
      return None;
    }

    method FinishOperation(o: nat, as_: OperationKind, plan: Plan) returns (returned: bool)
      requires Valid()
      modifies this
      ensures Valid() && Synced(Contents(), returned) == Finished(old(Contents()), o, as_, plan)
    {
      PerformAll(plan.steps);
      returned := false;
      if plan.result.Some? {
        match as_ {
          case Check => returned := CompleteCheckOperation(o, plan.result.value);
          case Process => returned := CompleteProcessOperation(o, plan.result.value);
          case NotApplicable => returned := CompleteApiOperation(o, plan.apiStatus, plan.result.value);
        }
      }
      if !returned { var _ := MarkInterruptedFailed(o, Some(FAILURE_NOTE)); }
    }

    /** Starts the operation, calls the executor and completes, or marks the operation interrupted when anything
        raises. */
    method RunOperation(o: nat, as_: OperationKind, executor: Executor) returns (returned: bool)
      requires Valid()
      modifies this
      ensures Valid() && Synced(Contents(), returned) == RunSync(old(Contents()), o, as_, executor)
    {
      var started := StartOperation(o);
      if !started { return false; }
      returned := FinishOperation(o, as_, executor(Contents(), o));
    }

    method MakeCheck(p: Press) returns (check: Option<nat>)
      requires Valid()
      modifies this
      ensures Valid() && Contents() == FreshCheck(old(Contents()), p).state
              && check == FreshCheck(old(Contents()), p).check
    {
      var id := CreateCheckOperation(p.request, None, true);
      if id.Raised? { return None; }
      var returned := RunOperation(id.value, Check, p.checkExecutor);
      if !returned || id.value !in operations || !ActualFor(operations[id.value], p.request) { return None; }
      return Some(id.value);
    }

    method MakeProcess(p: Press, check: nat, ghost before: Checked) returns (process: Option<nat>)
      requires Valid() && before.state == Contents()
      modifies this
      ensures Valid() && Contents() == ProcessPhase(before, p, check).state
              && process == ProcessPhase(before, p, check).process
    {
      var into := if check in operations then Some(operations[check].run) else None;
      var id := CreateProcessOperation(p.request, check, into, p.confirmed, p.processAllowed);
      if id.Raised? { return None; }
      var returned := RunOperation(id.value, Process, p.processExecutor);
      return if returned then Some(id.value) else None;
    }

    /** Reuses the newest actual check or makes one, then creates and runs the process on it. */
    method PressProcess(p: Press) returns (result: Option<(nat, nat)>)
      requires Valid()
      modifies this
      ensures Valid() && Contents() == Pressing(old(Contents()), p).state
      ensures result == var r := Pressing(old(Contents()), p);
                        if r.process.Some? && r.checked.check.Some? then Some((r.checked.check.value, r.process.value))
                        else None
    {
      if !p.allowed { return None; }
      ghost var phase := CheckPhase(Contents(), p);
      var check := FindActualSuccessfulCheck(p.request);
      if check.None? { check := MakeCheck(p); }
      if check.None? { return None; }
      var process := MakeProcess(p, check.value, phase);
      return if process.Some? then Some((check.value, process.value)) else None;
    }
  }

  lemma FoldedProcess(before: Operation, r: ShellResult, after: Operation)
    requires after == before.(summary := r.summary, errors := r.errors, warnings := r.warnings, produced := r.output,
                              outputs := if r.output.Some? then before.outputs + {r.output.value} else before.outputs,
                              status := if r.errors != 0 then WithError else if r.warnings != 0 then WithWarnings
                                        else Success)
    ensures after == Counted(before, ProcessOutcome(r), r).(outputs := before.outputs + OutputSet(r.output),
                                                            produced := r.output)
  {
    assert before.outputs + {} == before.outputs;
  }

  lemma LastIsNewest(actual: set<nat>, ids: seq<nat>, n: nat)
    requires n < |ids| && (forall i, j :: 0 <= i < j < |ids| ==> ids[i] < ids[j])
    requires ids[n] in actual && (forall o :: o in actual ==> o in ids)
    requires forall k :: n < k < |ids| ==> ids[k] !in actual
    ensures Newest(actual) == Some(ids[n])
  {
    var found := Newest(actual).value;
    var k :| 0 <= k < |ids| && ids[k] == found;
  }
}
