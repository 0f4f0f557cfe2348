/** What running an operation and pressing "process" do, in terms of the stored fields. */
module PressContracts {
  import opened Common
  import opened OperationMetadata
  import opened OperationTypes
  import opened OperationSteps
  import opened OperationInvariants
  import opened OperationContracts
  import opened OperationRuns

  /** The check that is used is the newest that completed without errors on the request's data. */
  lemma FindActualIff(s: State, q: Request, o: nat)
    requires Reachable(s)
    ensures FindActual(s, q) == Some(o) <==> BasisOk(s, q, o) && forall x: nat :: BasisOk(s, q, x) ==> x <= o
    ensures FindActual(s, q).None? <==> forall x :: !BasisOk(s, q, x)
  {
    forall x: nat ensures x in Actual(s, q) <==> BasisOk(s, q, x) { ActualIff(s, q, x); }
  }

  lemma ActualIff(s: State, q: Request, o: nat)
    requires Reachable(s)
    ensures o in Actual(s, q) <==> BasisOk(s, q, o)
  {
    ReachableIsSound(s);
    BasisOkIff(s, q, o);
  }

  /** The rows the query fetches. */
  lemma CandidatesIff(s: State, q: Request, o: nat)
    ensures o in Candidates(s, q) <==>
              o in s.operations
              && var op := s.operations[o];
                 op.kind == Check && op.status in {NoErrors, WithWarnings} && op.errors == 0
                 && op.scenario == q.scenario && op.logic == q.logic
  {
  }

  // ---------- one operation ----------

  /** The executor's result is taken as the operation's. */
  ghost predicate Completable(s: State, o: nat, as_: OperationKind, r: ShellResult, apiStatus: Status) {
    && Unfinished(s, o) && s.operations[o].kind == as_ && CountsOk(r)
    && (as_ != Check && r.output.Some? ==> OutputOk(s, s.operations[o].scenario, r.output.value))
    && (as_ == NotApplicable ==> apiStatus in {Success, WithWarnings, WithError, InterruptedFailed})
  }

  lemma CompletableIff(s: State, o: nat, as_: OperationKind, r: ShellResult, apiStatus: Status)
    requires Inv(s)
    ensures Step(s, Completion(o, as_, r, apiStatus)).Ok? <==> Completable(s, o, as_, r, apiStatus)
  {
    CompleteCheckMeaning(s, o, r);
    CompleteProcessMeaning(s, o, r);
    CompleteApiMeaning(s, o, apiStatus, r);
  }

  ghost function StartedState(s: State, o: nat): State
    requires o in s.operations
  {
    Written(s, o, s.operations[o].(status := Running), Some(RunRunning))
  }

  lemma FinishedMeaning(s: State, o: nat, as_: OperationKind, plan: Plan)
    requires Reachable(s)
    ensures var r, after := Finished(s, o, as_, plan), Run(s, plan.steps);
      && (r.returned <==> plan.result.Some? && Completable(after, o, as_, plan.result.value, plan.apiStatus))
      && (r.returned ==> r.state == Next(after, Completion(o, as_, plan.result.value, plan.apiStatus)))
      && (!r.returned && Unfinished(after, o) ==>
            r.state == Written(after, o, after.operations[o].(status := InterruptedFailed, summary := 1),
                               Some(RunInterrupted)))
      && (!r.returned && !Unfinished(after, o) ==> r.state == after)
  {
    var after := Run(s, plan.steps);
    RunReachable(s, plan.steps);
    ReachableIsSound(after);
    InterruptMeaning(after, o, Some(FAILURE_NOTE));
    if plan.result.Some? { CompletableIff(after, o, as_, plan.result.value, plan.apiStatus); }
  }

  /** An operation that may be started runs; the call returns exactly when the executor yields a result that completes
      the operation in the state its own steps left. Otherwise the operation and its run end interrupted, with the
      failure noted, unless the executor itself had ended the operation. */
  lemma RunSyncMeaning(s: State, o: nat, as_: OperationKind, executor: Executor)
    requires Reachable(s)
    ensures !Unfinished(s, o) ==> RunSync(s, o, as_, executor) == Synced(s, false)
    ensures Unfinished(s, o) ==>
              var r, plan := RunSync(s, o, as_, executor), executor(StartedState(s, o), o);
              var after := Run(StartedState(s, o), plan.steps);
              && (r.returned <==>
                    plan.result.Some? && Completable(after, o, as_, plan.result.value, plan.apiStatus))
              && (r.returned ==> r.state == Next(after, Completion(o, as_, plan.result.value, plan.apiStatus)))
              && (!r.returned && Unfinished(after, o) ==>
                    r.state == Written(after, o, after.operations[o].(status := InterruptedFailed, summary := 1),
                                       Some(RunInterrupted)))
              && (!r.returned && !Unfinished(after, o) ==> r.state == after)
  {
    ReachableIsSound(s);
    StartMeaning(s, o);
    if Unfinished(s, o) {
      var started := StartedState(s, o);
      NextReachable(s, Start(o));
      assert Finished(started, o, as_, executor(started, o)) == RunSync(s, o, as_, executor);
      FinishedMeaning(started, o, as_, executor(started, o));
    }
  }

  // ---------- pressing ----------

  /** A check is made exactly when no stored one is actual and the request can be stored; its executor is called for the
      running check, which holds the request's data. */
  lemma CheckPhaseMeaning(s: State, p: Press)
    requires Reachable(s)
    ensures var c, q := CheckPhase(s, p), p.request;
      && (|c.calls| == 1 <==>
            && (forall x :: !BasisOk(s, q, x)) && q.scenario.mode == Excel && StoreOk(s.world, q.scenario)
            && LogicOk(q.logic) && InputsOk(s.world, q.scenario, q.inputs) && ParamsOk(q.params))
      && (|c.calls| == 1 ==>
            && c.calls[0].operation == s.nextOperation && s.nextOperation in c.calls[0].seen.operations
            && c.calls[0].seen.operations[s.nextOperation]
               == Fresh(q.scenario, Check, NoStep, s.nextRun, q.logic, None, q.inputs, q.params).(status := Running))
      && (|c.calls| == 0 && c.check.None? ==> c.state == s)
  {
    CheckRunsIffNoneActual(s, p);
    CreateCheckMeaning(s, p.request, None, true);
    FindActualIff(s, p.request, 0);
    FindActualNone(s, p.request);
    if Step(s, CreateCheck(p.request, None, true)).Ok? {
      CreatedOpen(s, CreateCheck(p.request, None, true));
      StartedRow(Step(s, CreateCheck(p.request, None, true)).value, s.nextOperation);
    }
  }

  lemma FindActualNone(s: State, q: Request)
    ensures FindActual(s, q).None? <==> Actual(s, q) == {}
  {
  }

  /** A process is made exactly for one who may, on the check found or made, confirmed where that check warns, in the
      check's run; its executor is called for the running process, which holds the request's data. */
  lemma ProcessPhaseMeaning(c: Checked, p: Press, check: nat)
    requires Reachable(c.state) && BasisOk(c.state, p.request, check)
    ensures var r, s, q := ProcessPhase(c, p, check), c.state, p.request; var run := Some(s.operations[check].run);
      && (|r.calls| == 1 <==>
            p.processAllowed && (Warned(s.operations[check]) ==> p.confirmed) && ProcessRowsOk(s, q, check, run))
      && (|r.calls| != 1 ==> r == Pressed(s, c, [], None))
      && (|r.calls| == 1 ==> var seen, o := r.calls[0].seen, s.nextOperation;
            && r.calls[0].operation == o && o in seen.operations
            && seen.operations[o]
               == Fresh(q.scenario, Process, NoStep, run.value, q.logic, Some(check), q.inputs, q.params).(
                    status := Running)
            && seen.confirmations == s.confirmations + if p.confirmed then [(check, o)] else [])
      && (r.process.Some? ==> r.process == Some(s.nextOperation))
  {
    var s, q := c.state, p.request;
    var run := Some(s.operations[check].run);
    ReachableIsSound(s);
    CreateProcessMeaning(s, q, check, run, p.confirmed, p.processAllowed);
    if Step(s, ProcessCommand(s, p, check)).Ok? {
      var t := Step(s, ProcessCommand(s, p, check)).value;
      CreatedOpen(s, ProcessCommand(s, p, check));
      StartedRow(t, s.nextOperation);
      StartMeaning(t, s.nextOperation) by { ReachableIsSound(t); }
    }
  }

  /** Without the right to press nothing happens; without a check the press ends there. */
  lemma PressMeaning(s: State, p: Press)
    requires Reachable(s)
    ensures !p.allowed ==> Pressing(s, p) == Pressed(s, Checked(s, None, []), [], None)
    ensures p.allowed ==>
              var c := CheckPhase(s, p);
              && (c.check.None? ==> Pressing(s, p) == Pressed(c.state, c, [], None))
              && (c.check.Some? ==> Pressing(s, p) == ProcessPhase(c, p, c.check.value)
                                    && BasisOk(c.state, p.request, c.check.value))
  {
    if p.allowed && CheckPhase(s, p).check.Some? {
      var c := CheckPhase(s, p);
      CheckPhaseSettles(s, p);
      ReachableIsSound(c.state);
      BasisOkIff(c.state, p.request, c.check.value);
    }
  }
}
