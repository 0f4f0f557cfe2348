/** Finding an actual check, running operations with arbitrary executors, and pressing "process". */
module OperationRuns {
  import opened Common
  import opened OperationMetadata
  import opened OperationTypes
  import opened OperationSteps
  import opened OperationInvariants

  /** What an executor does: service steps of its own, then a result, or none when it raises. */
  datatype Plan = Plan(steps: seq<Command>, result: Option<ShellResult>, apiStatus: Status)

  /** An executor sees the stored rows and the operation it is called for. */
  type Executor = (State, nat) -> Plan

  datatype Synced = Synced(state: State, returned: bool)

  /** The summary an interruption leaves behind. */
  const FAILURE_NOTE := 1

  // ---------- the newest actual check ----------

  function Actual(s: State, q: Request): set<nat> { set o | o in s.operations && ActualFor(s.operations[o], q) }

  /** The rows the query fetches before the metadata is compared. */
  predicate Candidate(op: Operation, q: Request) {
    && op.scenario == q.scenario && op.kind.Check? && (op.status.NoErrors? || op.status.WithWarnings?)
    && op.errors == 0 && op.logic == q.logic
  }

  function Candidates(s: State, q: Request): set<nat> { set o | o in s.operations && Candidate(s.operations[o], q) }

  function Newest(ids: set<nat>): (r: Option<nat>)
    ensures r.None? <==> ids == {}
    ensures r.Some? ==> r.value in ids && forall x :: x in ids ==> x <= r.value
  {
    var ordered := Ordered(ids);
    if ordered == [] then
      assert forall x :: x in ids ==> x in ordered;
      None
    else
      assert forall x :: x in ids ==> x in ordered;
      Some(ordered[|ordered| - 1])
  }

  function FindActual(s: State, q: Request): Option<nat> { Newest(Actual(s, q)) }

  /** Every actual check passes the query's filter. */
  lemma ActualAreCandidates(s: State, q: Request)
    ensures Actual(s, q) <= Candidates(s, q)
  {
    forall o | o in Actual(s, q) ensures o in Candidates(s, q) {
      assert StoredMetadata(s.operations[o]).scenario == RequestedMetadata(q).scenario;
      assert StoredMetadata(s.operations[o]).logic == RequestedMetadata(q).logic;
    }
  }

  // ---------- running one operation ----------

  function Completion(o: nat, as_: OperationKind, result: ShellResult, apiStatus: Status): Command {
    match as_
    case Check => CompleteCheck(o, result)
    case Process => CompleteProcess(o, result)
    case NotApplicable => CompleteApi(o, apiStatus, result)
  }

  /** Once started: the executor's steps, then completion; anything that raises ends in an interruption, which itself
      raises when the operation is already terminal. */
  function Finished(s: State, o: nat, as_: OperationKind, plan: Plan): Synced {
    var after := Run(s, plan.steps);
    if plan.result.Some? && Step(after, Completion(o, as_, plan.result.value, plan.apiStatus)).Ok? then
      Synced(Next(after, Completion(o, as_, plan.result.value, plan.apiStatus)), true)
    else Synced(Next(after, Interrupt(o, Some(FAILURE_NOTE))), false)
  }

  function RunSync(s: State, o: nat, as_: OperationKind, executor: Executor): Synced {
    var started := Step(s, Start(o));
    if started.Raised? then Synced(s, false) else Finished(started.value, o, as_, executor(started.value, o))
  }

  lemma CompletedTerminal(s: State, o: nat, as_: OperationKind, result: ShellResult, apiStatus: Status)
    requires Step(s, Completion(o, as_, result, apiStatus)).Ok?
    ensures var t := Step(s, Completion(o, as_, result, apiStatus)).value;
      && o in s.operations && s.operations[o].kind == as_ && o in t.operations && Terminal(t.operations[o])
      && t.operations[o].errors == result.errors && t.operations[o].inputs == s.operations[o].inputs
      && t.operations[o].params == s.operations[o].params
      && (as_.Check? ==> t.operations[o].status == CheckOutcome(result))
      && (as_.Process? ==> t.operations[o].status == ProcessOutcome(result))
  {
    CompletionKeepsRows(s, Completion(o, as_, result, apiStatus), o);
  }

  lemma InterruptedTerminal(s: State, o: nat)
    requires o in s.operations
    ensures o in Next(s, Interrupt(o, Some(FAILURE_NOTE))).operations
            && Terminal(Next(s, Interrupt(o, Some(FAILURE_NOTE))).operations[o])
  {
  }

  /** However the executor behaves, a started operation is terminal when the call returns or raises. */
  lemma FinishedSettles(s: State, o: nat, as_: OperationKind, plan: Plan)
    requires Reachable(s) && o in s.operations
    ensures var r := Finished(s, o, as_, plan);
      Reachable(r.state) && Grown(s, r.state) && o in r.state.operations && Terminal(r.state.operations[o])
  {
    var after := Run(s, plan.steps);
    RunReachable(s, plan.steps);
    NextReachable(after, Interrupt(o, Some(FAILURE_NOTE)));
    GrownTransitive(s, after, Next(after, Interrupt(o, Some(FAILURE_NOTE))));
    InterruptedTerminal(after, o);
    if plan.result.Some? {
      var c := Completion(o, as_, plan.result.value, plan.apiStatus);
      NextReachable(after, c);
      GrownTransitive(s, after, Next(after, c));
      if Step(after, c).Ok? { CompletedTerminal(after, o, as_, plan.result.value, plan.apiStatus); }
    }
  }

  lemma RunSyncSettles(s: State, o: nat, as_: OperationKind, executor: Executor)
    requires Reachable(s)
    ensures var r := RunSync(s, o, as_, executor);
      && Reachable(r.state) && Grown(s, r.state)
      && (Open(s, o) ==> o in r.state.operations && Terminal(r.state.operations[o]))
      && (r.returned ==> Open(s, o) && o in r.state.operations && Terminal(r.state.operations[o]))
  {
    GrownByRunless(s);
    if Open(s, o) {
      var started := Next(s, Start(o));
      NextReachable(s, Start(o));
      FinishedSettles(started, o, as_, executor(started, o));
      GrownTransitive(s, started, RunSync(s, o, as_, executor).state);
    }
  }

  // ---------- pressing "process" ----------

  datatype Press = Press(request: Request, confirmed: bool, allowed: bool, processAllowed: bool,
                         checkExecutor: Executor, processExecutor: Executor)

  /** An executor call: for which operation, and the stored rows at that moment. */
  datatype Call = Call(operation: nat, seen: State)

  /** The first half: an actual check, found or freshly run, unless there is none. */
  datatype Checked = Checked(state: State, check: Option<nat>, calls: seq<Call>)

  datatype Pressed = Pressed(state: State, checked: Checked, calls: seq<Call>, process: Option<nat>)

  function FreshCheck(s: State, p: Press): Checked {
    var created := Step(s, CreateCheck(p.request, None, true));
    if created.Raised? then Checked(s, None, [])
    else
      var o := s.nextOperation;
      var r := RunSync(created.value, o, Check, p.checkExecutor);
      var calls := [Call(o, Next(created.value, Start(o)))];
      if r.returned && o in r.state.operations && ActualFor(r.state.operations[o], p.request)
        then Checked(r.state, Some(o), calls)
      else Checked(r.state, None, calls)
  }

  function CheckPhase(s: State, p: Press): Checked {
    var found := FindActual(s, p.request);
    if found.Some? then Checked(s, found, []) else FreshCheck(s, p)
  }

  function ProcessCommand(s: State, p: Press, check: nat): Command {
    CreateProcess(p.request, check, if check in s.operations then Some(s.operations[check].run) else None, p.confirmed,
                  p.processAllowed)
  }

  function ProcessPhase(c: Checked, p: Press, check: nat): Pressed {
    var created := Step(c.state, ProcessCommand(c.state, p, check));
    if created.Raised? then Pressed(c.state, c, [], None)
    else
      var o := c.state.nextOperation;
      var r := RunSync(created.value, o, Process, p.processExecutor);
      Pressed(r.state, c, [Call(o, Next(created.value, Start(o)))], if r.returned then Some(o) else None)
  }

  function Pressing(s: State, p: Press): Pressed {
    if !p.allowed then Pressed(s, Checked(s, None, []), [], None)
    else
      var c := CheckPhase(s, p);
      if c.check.None? then Pressed(c.state, c, [], None) else ProcessPhase(c, p, c.check.value)
  }

  // ---------- what pressing guarantees ----------

  lemma CreatedOpen(s: State, c: Command)
    requires Reachable(s) && (c.CreateCheck? || c.CreateProcess?) && Step(s, c).Ok?
    ensures var t := Step(s, c).value; var o := s.nextOperation;
      && Reachable(t) && Grown(s, t) && o !in s.operations && Open(t, o)
      && t.operations == s.operations[o := t.operations[o]]
      && t.operations[o].kind == (if c.CreateCheck? then Check else Process)
      && t.operations[o].inputs == c.request.inputs && t.operations[o].params == c.request.params
      && t.operations[o].scenario == c.request.scenario && t.operations[o].logic == c.request.logic
      && DistinctCodes(c.request.params)
  {
    NextReachable(s, c);
    NextIdFree(s);
  }

  lemma FreshCheckSettles(s: State, p: Press)
    requires Reachable(s)
    ensures var c := FreshCheck(s, p);
      && Reachable(c.state) && Grown(s, c.state)
      && (c.check.Some? ==>
            c.check.value in c.state.operations && ActualFor(c.state.operations[c.check.value], p.request)
                            && c.check.value == s.nextOperation && s.nextOperation !in s.operations)
      && (forall i :: 0 <= i < |c.calls| ==> c.calls[i].operation in c.state.operations
                                             && Terminal(c.state.operations[c.calls[i].operation]))
  {
    var command := CreateCheck(p.request, None, true);
    GrownByRunless(s);
    if Step(s, command).Ok? {
      var t, o := Step(s, command).value, s.nextOperation;
      CreatedOpen(s, command);
      RunSyncSettles(t, o, Check, p.checkExecutor);
      GrownTransitive(s, t, RunSync(t, o, Check, p.checkExecutor).state);
    }
  }

  lemma CheckPhaseSettles(s: State, p: Press)
    requires Reachable(s)
    ensures var c := CheckPhase(s, p);
      && Reachable(c.state) && Grown(s, c.state)
      && (c.check.Some? ==>
            c.check.value in c.state.operations && ActualFor(c.state.operations[c.check.value], p.request))
      && (forall i :: 0 <= i < |c.calls| ==> c.calls[i].operation in c.state.operations
                                             && Terminal(c.state.operations[c.calls[i].operation]))
  {
    GrownByRunless(s);
    FreshCheckSettles(s, p);
  }

  /** A check is made and run exactly when no stored check is actual and its creation is accepted, and at most once. */
  lemma CheckRunsIffNoneActual(s: State, p: Press)
    requires Reachable(s)
    ensures |CheckPhase(s, p).calls| == if Actual(s, p.request) == {}
            && Step(s, CreateCheck(p.request, None, true)).Ok? then 1 else 0
    ensures Actual(s, p.request) != {} ==>
              CheckPhase(s, p).state == s && CheckPhase(s, p).check == Newest(Actual(s, p.request))
  {
  }

  lemma TerminalStays(s: State, t: State, o: nat)
    requires Grown(s, t) && o in s.operations && Terminal(s.operations[o])
    ensures o in t.operations && Terminal(t.operations[o]) && Settled(s.operations[o], t.operations[o])
  {
    assert Evolved(s.operations[o], t.operations[o]);
  }

  lemma ProcessPhaseSettles(c: Checked, p: Press, check: nat)
    requires Reachable(c.state)
    ensures var r := ProcessPhase(c, p, check);
      && Reachable(r.state) && Grown(c.state, r.state)
      && (forall i :: 0 <= i < |r.calls| ==> r.calls[i].operation in r.state.operations
                                             && Terminal(r.state.operations[r.calls[i].operation]))
  {
    var s, command := c.state, ProcessCommand(c.state, p, check);
    GrownByRunless(s);
    if Step(s, command).Ok? {
      var t, o := Step(s, command).value, s.nextOperation;
      CreatedOpen(s, command);
      RunSyncSettles(t, o, Process, p.processExecutor);
      GrownTransitive(s, t, RunSync(t, o, Process, p.processExecutor).state);
    }
  }

  /** Whatever the executors do, every operation a press starts is terminal when the press returns or raises. */
  lemma PressSettles(s: State, p: Press)
    requires Reachable(s)
    ensures var r := Pressing(s, p); var calls := r.checked.calls + r.calls;
      && Reachable(r.state) && Grown(s, r.state)
      && forall i :: 0 <= i < |calls| ==>
           calls[i].operation in r.state.operations && Terminal(r.state.operations[calls[i].operation])
  {
    GrownByRunless(s);
    var c, r := CheckPhase(s, p), Pressing(s, p);
    CheckPhaseSettles(s, p);
    if p.allowed && c.check.Some? {
      ProcessPhaseSettles(c, p, c.check.value);
      GrownTransitive(s, c.state, r.state);
      forall i | 0 <= i < |c.calls|
        ensures c.calls[i].operation in r.state.operations && Terminal(r.state.operations[c.calls[i].operation]) {
        TerminalStays(c.state, r.state, c.calls[i].operation);
      }
    }
  }

  /** A process executor call rests on a running process whose basis is, at that moment, a check actual for the
      request. */
  ghost predicate GroundedCall(call: Call, q: Request, check: nat) {
    && call.operation in call.seen.operations && check in call.seen.operations
    && call.seen.operations[call.operation].kind.Process? && call.seen.operations[call.operation].status.Running?
    && call.seen.operations[call.operation].basis == Some(check) && ActualFor(call.seen.operations[check], q)
  }

  lemma ProcessBasis(s: State, p: Press, check: nat)
    requires Reachable(s) && Step(s, ProcessCommand(s, p, check)).Ok?
    ensures var t := Step(s, ProcessCommand(s, p, check)).value;
      s.nextOperation in t.operations && t.operations[s.nextOperation].basis == Some(check)
      && t.operations[s.nextOperation].kind.Process?
  {
  }

  lemma StartedRow(s: State, o: nat)
    requires Open(s, o)
    ensures Next(s, Start(o)).operations == s.operations[o := s.operations[o].(status := Running)]
  {
  }

  lemma StartedGrounded(s: State, p: Press, check: nat)
    requires Reachable(s) && check in s.operations && ActualFor(s.operations[check], p.request)
    requires Step(s, ProcessCommand(s, p, check)).Ok?
    ensures var t := Step(s, ProcessCommand(s, p, check)).value; var o := s.nextOperation;
      GroundedCall(Call(o, Next(t, Start(o))), p.request, check)
  {
    var t, o := Step(s, ProcessCommand(s, p, check)).value, s.nextOperation;
    CreatedOpen(s, ProcessCommand(s, p, check));
    ProcessBasis(s, p, check);
    StartedRow(t, o);
  }

  /** The process executor is called at most once, and only on an actual successful basis. */
  lemma ProcessCallGrounded(s: State, p: Press)
    requires Reachable(s)
    ensures var r := Pressing(s, p);
      |r.calls| <= 1 && (|r.calls| == 1 ==>
                           r.checked.check.Some? && GroundedCall(r.calls[0], p.request, r.checked.check.value))
  {
    var c := CheckPhase(s, p);
    CheckPhaseSettles(s, p);
    if p.allowed && c.check.Some? && Step(c.state, ProcessCommand(c.state, p, c.check.value)).Ok? {
      StartedGrounded(c.state, p, c.check.value);
    }
  }

  /** A press that returns hands back a check that was actual for the request when the process was made (the newest one
      if any was actual before) and is still successful, and a new, completed process on that check. */
  lemma PressReturns(s: State, p: Press)
    requires Reachable(s)
    ensures Pressing(s, p).process.Some? ==> var r := Pressing(s, p); var o := r.process.value;
      && r.checked.check.Some? && r.checked.check.value in r.state.operations
      && r.checked.check.value in r.checked.state.operations
      && ActualFor(r.checked.state.operations[r.checked.check.value], p.request)
      && SuccessfulCheck(r.state.operations[r.checked.check.value])
      && (Actual(s, p.request) != {} ==> r.checked.check == Newest(Actual(s, p.request)))
      && (Actual(s, p.request) == {} ==> r.checked.check == Some(s.nextOperation) && s.nextOperation !in s.operations)
      && o !in s.operations && o in r.state.operations && Terminal(r.state.operations[o])
      && r.state.operations[o].kind.Process? && r.state.operations[o].basis == r.checked.check
  {
    var c, r := CheckPhase(s, p), Pressing(s, p);
    if r.process.Some? {
      CheckPhaseSettles(s, p);
      FreshCheckSettles(s, p);
      var check, command := c.check.value, ProcessCommand(c.state, p, c.check.value);
      var t, o := Step(c.state, command).value, c.state.nextOperation;
      CreatedOpen(c.state, command);
      ProcessBasis(c.state, p, check);
      RunSyncSettles(t, o, Process, p.processExecutor);
      GrownTransitive(c.state, t, r.state);
      TerminalStays(c.state, r.state, check);
      assert Evolved(t.operations[o], r.state.operations[o]);
    }
  }

  lemma OwnStepsFreeze(s: State, c: Command)
    requires Reachable(s) && !AddsRow(c) && !c.Confirm?
    ensures AllFrozen(s, Next(s, c))
  {
    ReachableIsSound(s);
    NextFreezes(s, c);
  }

  lemma FinishedFreezes(s: State, o: nat, as_: OperationKind, plan: Plan)
    requires Reachable(s) && Timely(s, plan.steps)
    ensures AllFrozen(s, Finished(s, o, as_, plan).state)
  {
    var after := Run(s, plan.steps);
    ReachableIsSound(s);
    RunFreezes(s, plan.steps);
    RunReachable(s, plan.steps);
    var completes := plan.result.Some? && Step(after, Completion(o, as_, plan.result.value, plan.apiStatus)).Ok?;
    var last := if completes then Completion(o, as_, plan.result.value, plan.apiStatus)
                else Interrupt(o, Some(FAILURE_NOTE));
    OwnStepsFreeze(after, last);
    AllFrozenTransitive(s, after, Next(after, last));
  }

  /** For a request with a date outside UTC no check is ever actual, so no press returns. */
  lemma PressNeedsUtc(s: State, p: Press)
    requires Reachable(s) && !DatesInUtc(p.request)
    ensures Actual(s, p.request) == {} && Pressing(s, p).process.None?
  {
    ReachableIsSound(s);
    forall o | o in s.operations ensures !ActualFor(s.operations[o], p.request) {
      if ActualFor(s.operations[o], p.request) { ActualInUtc(s.operations[o], p.request); }
    }
    PressReturns(s, p);
    if Pressing(s, p).process.Some? {
      var c := CheckPhase(s, p);
      CheckPhaseSettles(s, p);
      ReachableIsSound(c.state);
      ActualInUtc(c.state.operations[c.check.value], p.request);
    }
  }

  /** While the process executor saves no late row, the check is still actual when the press returns or raises. */
  lemma TimelyPressStaysActual(s: State, p: Press)
    requires Reachable(s)
    ensures var r := Pressing(s, p);
      |r.calls| == 1 && Timely(r.calls[0].seen, p.processExecutor(r.calls[0].seen, r.calls[0].operation).steps) ==>
        r.checked.check.Some? && r.checked.check.value in r.state.operations
        && ActualFor(r.state.operations[r.checked.check.value], p.request)
  {
    var c, r := CheckPhase(s, p), Pressing(s, p);
    if |r.calls| == 1 && Timely(r.calls[0].seen, p.processExecutor(r.calls[0].seen, r.calls[0].operation).steps) {
      CheckPhaseSettles(s, p);
      StartedGrounded(c.state, p, c.check.value);
      var command := ProcessCommand(c.state, p, c.check.value);
      var t, o := Step(c.state, command).value, c.state.nextOperation;
      var started := Next(t, Start(o));
      CreatedOpen(c.state, command);
      NextReachable(t, Start(o));
      FinishedFreezes(started, o, Process, p.processExecutor(started, o));
      FrozenStaysActual(started, r.state, c.check.value, p.request);
    }
  }

  lemma FrozenStaysActual(s: State, t: State, o: nat, q: Request)
    requires AllFrozen(s, t) && o in s.operations && ActualFor(s.operations[o], q)
    ensures o in t.operations && ActualFor(t.operations[o], q)
  {
  }

  // ---------- quiet executors ----------

  predicate QuietStep(c: Command) { !Creates(c) && !c.AttachInput? && !c.AttachParameter? }

  /** An executor that creates no operation and attaches no input or parameter. */
  ghost predicate Quiet(executor: Executor) {
    forall s: State, o: nat, i :: 0 <= i < |executor(s, o).steps| ==> QuietStep(executor(s, o).steps[i])
  }

  /** No operation is added, and each keeps its inputs and parameters. */
  ghost predicate SameRows(s: State, t: State) {
    && t.operations.Keys == s.operations.Keys && t.nextOperation == s.nextOperation
    && forall o :: o in s.operations ==>
         t.operations[o].inputs == s.operations[o].inputs && t.operations[o].params == s.operations[o].params
  }

  lemma SameRowsTransitive(s: State, t: State, u: State)
    requires SameRows(s, t) && SameRows(t, u)
    ensures SameRows(s, u)
  {
  }

  lemma QuietKeys(s: State, c: Command)
    requires QuietStep(c) && Step(s, c).Ok?
    ensures Step(s, c).value.nextOperation == s.nextOperation && Step(s, c).value.operations.Keys == s.operations.Keys
  {
  }

  lemma QuietNext(s: State, c: Command)
    requires Reachable(s) && QuietStep(c)
    ensures SameRows(s, Next(s, c))
  {
    if Step(s, c).Ok? {
      QuietKeys(s, c);
      forall o | o in s.operations
        ensures Step(s, c).value.operations[o].inputs == s.operations[o].inputs
                && Step(s, c).value.operations[o].params == s.operations[o].params
      {
        QuietRow(s, c, o);
      }
    }
  }

  lemma QuietRow(s: State, c: Command, o: nat)
    requires Reachable(s) && QuietStep(c) && Step(s, c).Ok? && o in s.operations
    ensures var t := Step(s, c).value;
      o in t.operations && t.operations[o].inputs == s.operations[o].inputs
        && t.operations[o].params == s.operations[o].params
  {
    ReachableIsSound(s);
    StepKeepsRows(s, c, o);
  }

  lemma {:induction false} QuietRun(s: State, commands: seq<Command>)
    requires Reachable(s) && forall i :: 0 <= i < |commands| ==> QuietStep(commands[i])
    ensures SameRows(s, Run(s, commands))
  {
    if commands != [] {
      var most := commands[..|commands| - 1];
      QuietRun(s, most);
      RunReachable(s, most);
      QuietNext(Run(s, most), commands[|commands| - 1]);
      SameRowsTransitive(s, Run(s, most), Run(s, commands));
    }
  }

  lemma QuietFinished(s: State, o: nat, as_: OperationKind, plan: Plan)
    requires Reachable(s) && forall i :: 0 <= i < |plan.steps| ==> QuietStep(plan.steps[i])
    ensures SameRows(s, Finished(s, o, as_, plan).state)
  {
    var after := Run(s, plan.steps);
    QuietRun(s, plan.steps);
    RunReachable(s, plan.steps);
    var completes := plan.result.Some? && Step(after, Completion(o, as_, plan.result.value, plan.apiStatus)).Ok?;
    var last := if completes then Completion(o, as_, plan.result.value, plan.apiStatus)
                else Interrupt(o, Some(FAILURE_NOTE));
    QuietNext(after, last);
    SameRowsTransitive(s, after, Next(after, last));
  }

  /** Running an operation with a quiet executor adds no operation and keeps every operation's inputs and parameters. */
  lemma QuietRunSync(s: State, o: nat, as_: OperationKind, executor: Executor)
    requires Reachable(s) && Quiet(executor)
    ensures SameRows(s, RunSync(s, o, as_, executor).state)
  {
    if Open(s, o) {
      var started := Next(s, Start(o));
      QuietNext(s, Start(o));
      NextReachable(s, Start(o));
      QuietFinished(started, o, as_, executor(started, o));
      SameRowsTransitive(s, started, RunSync(s, o, as_, executor).state);
    }
  }

  /** With quiet executors, a press that returns adds exactly one process, on the check it returns, and besides it only
      that check if it had to be made. */
  lemma QuietPressAddsOne(s: State, p: Press)
    requires Reachable(s) && Quiet(p.checkExecutor) && Quiet(p.processExecutor)
    ensures Pressing(s, p).process.Some? ==> var r := Pressing(s, p);
      r.checked.check.Some?
      && r.state.operations.Keys
         == s.operations.Keys + {r.process.value} + (if Actual(s, p.request) == {} then {r.checked.check.value} else {})
  {
    var c := CheckPhase(s, p);
    if Pressing(s, p).process.Some? {
      PressedByPhases(s, p);
      CheckPhaseReachable(s, p);
      QuietCheckPhase(s, p);
      QuietProcessPhase(c, p, c.check.value);
    }
  }

  lemma PressedByPhases(s: State, p: Press)
    requires Pressing(s, p).process.Some?
    ensures var c := CheckPhase(s, p);
      c.check.Some? && Pressing(s, p) == ProcessPhase(c, p, c.check.value) && Pressing(s, p).checked == c
  {
  }

  lemma CheckPhaseReachable(s: State, p: Press)
    requires Reachable(s)
    ensures Reachable(CheckPhase(s, p).state)
  {
    CheckPhaseSettles(s, p);
  }

  lemma QuietProcessPhase(c: Checked, p: Press, check: nat)
    requires Reachable(c.state) && Quiet(p.processExecutor) && ProcessPhase(c, p, check).process.Some?
    ensures ProcessPhase(c, p, check).state.operations.Keys == c.state.operations.Keys
            + {ProcessPhase(c, p, check).process.value}
    ensures ProcessPhase(c, p, check).checked == c
  {
    var command := ProcessCommand(c.state, p, check);
    var t, o := Step(c.state, command).value, c.state.nextOperation;
    CreatedOpen(c.state, command);
    QuietRunSync(t, o, Process, p.processExecutor);
  }

  lemma QuietCheckPhase(s: State, p: Press)
    requires Reachable(s) && Quiet(p.checkExecutor) && CheckPhase(s, p).check.Some?
    ensures CheckPhase(s, p).state.operations.Keys
         == s.operations.Keys + (if Actual(s, p.request) == {} then {CheckPhase(s, p).check.value} else {})
  {
    if Actual(s, p.request) == {} {
      var command := CreateCheck(p.request, None, true);
      CreatedOpen(s, command);
      QuietRunSync(Step(s, command).value, s.nextOperation, Check, p.checkExecutor);
    }
  }

  /** A check made from a request and completed through a quiet executor is actual for that request exactly when it
      completed without errors and the request gives its dates in UTC. */
  lemma FreshCheckActualIff(s: State, q: Request, executor: Executor)
    requires Reachable(s) && Quiet(executor) && Step(s, CreateCheck(q, None, true)).Ok?
    requires RunSync(Step(s, CreateCheck(q, None, true)).value, s.nextOperation, Check, executor).returned
    ensures var t := RunSync(Step(s, CreateCheck(q, None, true)).value, s.nextOperation, Check, executor).state;
      s.nextOperation in t.operations
      && (ActualFor(t.operations[s.nextOperation], q) <==> t.operations[s.nextOperation].errors == 0 && DatesInUtc(q))
  {
    var o, created := s.nextOperation, Step(s, CreateCheck(q, None, true)).value;
    CreatedOpen(s, CreateCheck(q, None, true));
    RunSyncSettles(created, o, Check, executor);
    QuietRunSync(created, o, Check, executor);
    var t := RunSync(created, o, Check, executor).state;
    assert Evolved(created.operations[o], t.operations[o]);
    RequestStoredAs(q, t.operations[o]);
    CompletedStatus(created, o, executor);
  }

  lemma CompletedStatus(s: State, o: nat, executor: Executor)
    requires RunSync(s, o, Check, executor).returned
    ensures var t := RunSync(s, o, Check, executor).state;
      o in t.operations && t.operations[o].kind.Check?
      && (t.operations[o].errors == 0 ==> t.operations[o].status.NoErrors? || t.operations[o].status.WithWarnings?)
  {
    var started := Next(s, Start(o));
    var plan := executor(started, o);
    CompletedTerminal(Run(started, plan.steps), o, Check, plan.result.value, plan.apiStatus);
  }
}
