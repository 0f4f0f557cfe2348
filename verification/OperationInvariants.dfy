/** What holds of the stored runs and operations in every reachable state. */
module OperationInvariants {
  import opened Common
  import opened Dates
  import opened OperationMetadata
  import opened OperationTypes
  import opened OperationSteps
  import opened ReasonCodes

  // ---------- the invariants ----------

  ghost predicate AllValid(s: State) {
    forall o :: o in s.operations ==> ValidStatus(s.operations[o].kind, s.operations[o].status)
  }

  /** Every stored operation passes the validation that each save repeats. */
  ghost predicate AllClean(s: State) { forall o :: o in s.operations ==> Clean(s, s.operations[o]) }

  ghost predicate RowsUnique(op: Operation) { DistinctPlaces(op.inputs) && DistinctCodes(op.params) }

  ghost predicate AllUnique(s: State) { forall o :: o in s.operations ==> RowsUnique(s.operations[o]) }

  predicate UnderWay(status: RunStatus) { status.RunRunning? || status.RunInterrupted? }

  /** A run with a running operation is running or interrupted. */
  ghost predicate RunsInStep(s: State) {
    forall o :: o in s.operations && s.operations[o].status.Running? ==>
      s.operations[o].run in s.runs && UnderWay(s.runs[s.operations[o].run].status)
  }

  ghost predicate Uses(op: Operation, v: nat) { v in op.outputs || op.produced == Some(v) }

  /** Every listing of a detail row belongs to the operation's store and marketplace. */
  ghost predicate DetailsFit(w: World, op: Operation) {
    forall i :: 0 <= i < |op.details| ==> ListingFits(w, op.scenario, op.details[i].listing)
  }

  ghost predicate DetailsInScope(s: State) { forall o :: o in s.operations ==> DetailsFit(s.world, s.operations[o]) }

  /** No file version is an output or a result of two operations. */
  ghost predicate OutputsOwned(s: State) {
    forall o, p, v :: o in s.operations && p in s.operations && Uses(s.operations[o], v) && Uses(s.operations[p], v) ==>
        o == p
  }

  ghost predicate Inv(s: State) {
    Numbered(s) && AllClean(s) && AllUnique(s) && DetailsInScope(s) && RunsInStep(s) && OutputsOwned(s)
  }

  // ---------- each step keeps them ----------

  lemma StepNumbers(s: State, c: Command)
    requires Numbered(s) && Step(s, c).Ok?
    ensures Numbered(Step(s, c).value)
  {
    if c.CreateProcess? { CreatingProcessGrows(s, c.request, c.basis, c.into, c.confirmed); }
  }

  lemma FrozenBasis(s: State, t: State, b: nat)
    requires Grown(s, t) && b in s.operations && SuccessfulCheck(s.operations[b])
    ensures b in t.operations && SuccessfulCheck(t.operations[b]) && Settled(s.operations[b], t.operations[b])
  {
    assert Evolved(s.operations[b], t.operations[b]);
  }

  lemma CleanKept(s: State, t: State, before: Operation, after: Operation)
    requires Grown(s, t) && Clean(s, before) && SameIdentity(before, after) && ValidStatus(after.kind, after.status)
    ensures Clean(t, after)
  {
    if before.kind.Process? { FrozenBasis(s, t, before.basis.value); }
  }

  lemma InsertedIsClean(s: State, op: Operation)
    requires Numbered(s) && Inserting(s, op).Ok?
    ensures Clean(Inserting(s, op).value, op)
  {
    InsertingGrows(s, op);
    CleanKept(s, Inserting(s, op).value, op, op);
  }

  predicate Creates(c: Command) { c.CreateRun? || c.CreateCheck? || c.CreateProcess? || c.CreateApi? }

  predicate Completes(c: Command) { c.CompleteCheck? || c.CompleteProcess? || c.CompleteApi? }

  lemma CreationKeepsOthers(s: State, c: Command, o: nat)
    requires Numbered(s) && o in s.operations && Creates(c) && Step(s, c).Ok?
    ensures o in Step(s, c).value.operations && Step(s, c).value.operations[o] == s.operations[o]
  {
  }

  lemma CompletionKeepsRows(s: State, c: Command, o: nat)
    requires o in s.operations && Completes(c) && Step(s, c).Ok?
    ensures var t := Step(s, c).value;
      o in t.operations && t.operations[o].inputs == s.operations[o].inputs
        && t.operations[o].params == s.operations[o].params
      && (o != c.operation ==> t.operations[o] == s.operations[o]) && Terminal(t.operations[c.operation])
  {
  }

  /** A new operation is clean and unstarted, its rows are unique and it has no output. */
  ghost predicate Newborn(t: State, op: Operation) {
    Clean(t, op) && RowsUnique(op) && op.status.Created? && op.details == [] && op.outputs == {} && op.produced.None?
  }

  lemma StepNewborns(s: State, c: Command, o: nat)
    requires Numbered(s) && Step(s, c).Ok? && o in Step(s, c).value.operations && o !in s.operations
    ensures Newborn(Step(s, c).value, Step(s, c).value.operations[o])
    ensures o == s.nextOperation && (Step(s, c).value.operations[o].kind.Process? ==> c.CreateProcess?)
  {
    match c
    case CreateCheck(q, into, _) =>
      var (t, r) := WithRun(s, q.scenario, into);
      InsertedIsClean(t, NewOperation(q.scenario, Check, NoStep, r, q.logic, None, q.inputs, q.params));
    case CreateProcess(q, basis, into, confirmed, _) => InsertedIsClean(s, NewProcess(s, q, basis, into));
    case CreateApi(scenario, step, logic, into, _) =>
      var (t, r) := WithRun(s, scenario.(mode := Api), into);
      InsertedIsClean(t, NewOperation(scenario.(mode := Api), NotApplicable, step, r, logic, None, [], []));
    case _ =>
  }

  lemma StepKeepsValid(s: State, c: Command)
    requires Numbered(s) && AllValid(s) && Step(s, c).Ok?
    ensures AllValid(Step(s, c).value)
  {
    var t := Step(s, c).value;
    forall o | o in t.operations ensures ValidStatus(t.operations[o].kind, t.operations[o].status) {
      if o !in s.operations {
        StepNewborns(s, c, o);
      } else if Creates(c) {
        CreationKeepsOthers(s, c, o);
      } else if Completes(c) {
        CompletionKeepsRows(s, c, o);
      }
    }
  }

  lemma StepKeepsClean(s: State, c: Command)
    requires Numbered(s) && AllClean(s) && Step(s, c).Ok?
    ensures AllClean(Step(s, c).value)
  {
    var t := Step(s, c).value;
    StepGrows(s, c);
    StepKeepsValid(s, c);
    forall o | o in t.operations ensures Clean(t, t.operations[o]) {
      if o in s.operations {
        assert Evolved(s.operations[o], t.operations[o]);
        CleanKept(s, t, s.operations[o], t.operations[o]);
      } else {
        StepNewborns(s, c, o);
      }
    }
  }

  lemma PlaceFreeSnoc(inputs: seq<InputSpec>, i: InputSpec)
    requires DistinctPlaces(inputs) && PlaceFree(inputs, i)
    ensures DistinctPlaces(inputs + [i])
  {
  }

  lemma CodeFreeSnoc(params: seq<ParamSpec>, p: ParamSpec)
    requires DistinctCodes(params) && CodeFree(params, p)
    ensures DistinctCodes(params + [p])
  {
  }

  predicate Attaches(c: Command, o: nat) { (c.AttachInput? || c.AttachParameter?) && c.operation == o }

  /** Only an attachment changes an operation's inputs and parameters, and only its own. */
  lemma StepKeepsRows(s: State, c: Command, o: nat)
    requires Numbered(s) && o in s.operations && Step(s, c).Ok?
    requires !Attaches(c, o)
    ensures var t := Step(s, c).value;
      o in t.operations && t.operations[o].inputs == s.operations[o].inputs
        && t.operations[o].params == s.operations[o].params
  {
    if Creates(c) {
      CreationKeepsOthers(s, c, o);
    } else if Completes(c) {
      CompletionKeepsRows(s, c, o);
    }
  }

  lemma StepKeepsUnique(s: State, c: Command)
    requires Numbered(s) && AllUnique(s) && Step(s, c).Ok?
    ensures AllUnique(Step(s, c).value)
  {
    var t := Step(s, c).value;
    forall o | o in t.operations ensures RowsUnique(t.operations[o]) {
      if o !in s.operations {
        StepNewborns(s, c, o);
      } else if Attaches(c, o) && c.AttachInput? {
        PlaceFreeSnoc(s.operations[o].inputs, c.input);
      } else if Attaches(c, o) {
        CodeFreeSnoc(s.operations[o].params, c.param);
      } else {
        StepKeepsRows(s, c, o);
      }
    }
  }

  lemma ClosedKeepsRunsInStep(s: State, r: nat)
    requires RunsInStep(s)
    ensures RunsInStep(Closed(s, r))
  {
  }

  lemma EditKeepsRunsInStep(s: State, o: nat, op: Operation)
    requires RunsInStep(s) && o in s.operations && op.run == s.operations[o].run
    requires op.status.Running? ==> s.operations[o].status.Running?
    ensures RunsInStep(Edit(s, o, op))
  {
  }

  lemma PutKeepsRunsInStep(s: State, op: Operation)
    requires RunsInStep(s) && Numbered(s) && !op.status.Running?
    ensures RunsInStep(Put(s, op))
  {
  }

  lemma PutRunKeepsRunsInStep(s: State, scenario: Scenario)
    requires RunsInStep(s) && Numbered(s)
    ensures RunsInStep(PutRun(s, scenario)) && Numbered(PutRun(s, scenario))
  {
  }

  lemma StartKeepsRunsInStep(s: State, o: nat)
    requires RunsInStep(s) && AllClean(s) && Open(s, o)
    ensures RunsInStep(Starting(s, o).value) && forall note :: RunsInStep(Interrupting(s, o, note).value)
  {
    assert Clean(s, s.operations[o]);
  }

  lemma CreationKeepsRunsInStep(s: State, scenario: Scenario, into: Option<nat>, op: Operation)
    requires RunsInStep(s) && Numbered(s) && !op.status.Running?
    ensures RunsInStep(Put(WithRun(s, scenario, into).0, op))
  {
    PutRunKeepsRunsInStep(s, scenario);
    PutKeepsRunsInStep(WithRun(s, scenario, into).0, op);
  }

  lemma CompletionKeepsRunsInStep(s: State, o: nat, op: Operation)
    requires RunsInStep(s) && o in s.operations && op.run == s.operations[o].run && !op.status.Running?
    ensures RunsInStep(Closed(Edit(s, o, op), op.run))
  {
    EditKeepsRunsInStep(s, o, op);
    ClosedKeepsRunsInStep(Edit(s, o, op), op.run);
  }

  lemma CompletionsKeepRunsInStep(s: State, c: Command)
    requires RunsInStep(s) && Completes(c) && Step(s, c).Ok?
    ensures RunsInStep(Step(s, c).value)
  {
    var op := s.operations[c.operation];
    match c
    case CompleteCheck(o, r) => CompletionKeepsRunsInStep(s, o, Counted(op, CheckOutcome(r), r));
    case CompleteProcess(o, r) =>
      CompletionKeepsRunsInStep(s, o, Counted(op, ProcessOutcome(r), r).(outputs := op.outputs + OutputSet(r.output),
                                                                         produced := r.output));
    case CompleteApi(o, status, r) =>
      CompletionKeepsRunsInStep(s, o, Counted(op, status, r).(outputs := op.outputs + OutputSet(r.output)));
  }

  lemma AddingKeepsRunsInStep(s: State, c: Command)
    requires RunsInStep(s) && AddsRow(c) && Adding(s, c).Ok?
    ensures RunsInStep(Adding(s, c).value)
  {
    EditKeepsRunsInStep(s, c.operation, Adding(s, c).value.operations[c.operation]);
  }

  lemma StepKeepsRunsInStep(s: State, c: Command)
    requires Numbered(s) && AllClean(s) && RunsInStep(s) && Step(s, c).Ok?
    ensures RunsInStep(Step(s, c).value)
  {
    match c
    case CreateRun(scenario) => PutRunKeepsRunsInStep(s, scenario);
    case CreateCheck(q, into, _) =>
      CreationKeepsRunsInStep(s, q.scenario, into,
                              NewOperation(q.scenario, Check, NoStep, WithRun(s, q.scenario, into).1, q.logic, None,
                                                                q.inputs, q.params));
    case CreateProcess(q, basis, into, _, _) => PutKeepsRunsInStep(s, NewProcess(s, q, basis, into));
    case CreateApi(scenario, step, logic, into, _) =>
      var api := scenario.(mode := Api);
      CreationKeepsRunsInStep(s, api, into, NewOperation(api, NotApplicable, step, WithRun(s, api, into).1, logic, None,
                                                         [], []));
    case Start(o) => StartKeepsRunsInStep(s, o);
    case Interrupt(o, _) => StartKeepsRunsInStep(s, o);
    case Confirm(_, _, _) =>
    case EnrichDetail(o, _, _) => EditKeepsRunsInStep(s, o, Step(s, c).value.operations[o]);
    case SaveSummary(o, _) => EditKeepsRunsInStep(s, o, Step(s, c).value.operations[o]);
    case CompleteCheck(_, _) => CompletionsKeepRunsInStep(s, c);
    case CompleteProcess(_, _) => CompletionsKeepRunsInStep(s, c);
    case CompleteApi(_, _, _) => CompletionsKeepRunsInStep(s, c);
    case _ => AddingKeepsRunsInStep(s, c);
  }

  /** A step lets an operation use no version but those it used before and ones nobody used. */
  lemma StepUses(s: State, c: Command, o: nat, v: nat)
    requires Numbered(s) && Step(s, c).Ok? && o in Step(s, c).value.operations
             && Uses(Step(s, c).value.operations[o], v)
    ensures o in s.operations
    ensures Uses(s.operations[o], v) || (VersionUnused(s.operations, v)
                                         && (c.CompleteProcess? || c.CompleteApi? || c.AddOutput?)
                                         && o == c.operation)
  {
    if o !in s.operations { StepNewborns(s, c, o); }
  }

  lemma StepKeepsOutputs(s: State, c: Command)
    requires Numbered(s) && OutputsOwned(s) && Step(s, c).Ok?
    ensures OutputsOwned(Step(s, c).value)
  {
    var t := Step(s, c).value;
    forall o, p, v | o in t.operations && p in t.operations && Uses(t.operations[o], v) && Uses(t.operations[p], v)
      ensures o == p {
      StepUses(s, c, o, v);
      StepUses(s, c, p, v);
    }
  }

  lemma EnrichedFits(w: World, op: Operation, i: nat, listing: nat)
    requires DetailsFit(w, op) && i < |op.details| && ListingFits(w, op.scenario, Some(listing))
    ensures DetailsFit(w, op.(details := op.details[i := op.details[i].(listing := Some(listing))]))
  {
  }

  lemma AppendedFits(w: World, op: Operation, d: Detail)
    requires DetailsFit(w, op) && ListingFits(w, op.scenario, d.listing)
    ensures DetailsFit(w, op.(details := op.details + [d]))
  {
  }

  lemma SameDetails(s: State, c: Command, o: nat)
    requires Numbered(s) && Step(s, c).Ok? && o in s.operations && !(c.AddDetail? && c.operation == o)
    requires !(c.EnrichDetail? && c.operation == o)
    ensures var t := Step(s, c).value;
      o in t.operations && t.operations[o].details == s.operations[o].details
        && t.operations[o].scenario == s.operations[o].scenario
  {
    if !Edits(c, o) { OnlyEdited(s, c, o); }
  }

  lemma StepKeepsDetails(s: State, c: Command)
    requires Numbered(s) && DetailsInScope(s) && Step(s, c).Ok?
    ensures DetailsInScope(Step(s, c).value)
  {
    var t := Step(s, c).value;
    StepGrows(s, c);
    forall o | o in t.operations ensures DetailsFit(t.world, t.operations[o]) {
      if o !in s.operations {
        StepNewborns(s, c, o);
      } else if c.AddDetail? && c.operation == o {
        AppendedFits(s.world, s.operations[o], c.detail);
      } else if c.EnrichDetail? && c.operation == o {
        EnrichedFits(s.world, s.operations[o], c.index, c.listing);
      } else {
        SameDetails(s, c, o);
      }
    }
  }

  lemma NextKeepsInv(s: State, c: Command)
    requires Inv(s)
    ensures Inv(Next(s, c)) && Grown(s, Next(s, c))
  {
    if Step(s, c).Ok? {
      StepGrows(s, c);
      StepNumbers(s, c);
      StepKeepsClean(s, c);
      StepKeepsUnique(s, c);
      StepKeepsDetails(s, c);
      StepKeepsRunsInStep(s, c);
      StepKeepsOutputs(s, c);
    } else {
      GrownByRunless(s);
    }
  }

  /** Through every sequence of steps the invariants stay, identities never change, rows are only added, and the own row
      of a terminal operation is kept. */
  lemma {:induction false} RunSettles(s: State, commands: seq<Command>)
    requires Inv(s)
    ensures Inv(Run(s, commands)) && Grown(s, Run(s, commands))
  {
    if commands == [] {
      GrownByRunless(s);
    } else {
      var most := commands[..|commands| - 1];
      RunSettles(s, most);
      NextKeepsInv(Run(s, most), commands[|commands| - 1]);
      GrownTransitive(s, Run(s, most), Run(s, commands));
    }
  }

  /** No step saves a late row that is accepted. */
  predicate Timely(s: State, commands: seq<Command>) {
    commands == []
    || (Timely(s, commands[..|commands| - 1])
        && (Step(Run(s, commands[..|commands| - 1]), commands[|commands| - 1]).Ok? ==>
              !Late(Run(s, commands[..|commands| - 1]), commands[|commands| - 1])))
  }

  ghost predicate TimelyAt(s: State, commands: seq<Command>, n: nat)
    requires n < |commands|
  {
    var t := Run(s, commands[..n]);
    Step(t, commands[n]).Ok? ==> !Late(t, commands[n])
  }

  lemma {:induction false} TimelyIff(s: State, commands: seq<Command>)
    ensures Timely(s, commands) <==> forall n: nat :: n < |commands| ==> TimelyAt(s, commands, n)
    decreases |commands|
  {
    if commands != [] {
      var most := commands[..|commands| - 1];
      TimelyIff(s, most);
      forall n: nat | n < |most| ensures TimelyAt(s, most, n) <==> TimelyAt(s, commands, n) {
        assert most[n] == commands[n] && most[..n] == commands[..n];
      }
      assert Timely(s, commands) <==> Timely(s, most) && TimelyAt(s, commands, |most|);
    }
  }


  lemma NextFreezes(s: State, c: Command)
    requires Numbered(s) && (Step(s, c).Ok? ==> !Late(s, c))
    ensures AllFrozen(s, Next(s, c))
  {
    if Step(s, c).Ok? {
      StepFreezesIff(s, c);
    } else {
      NothingThaws(s);
    }
  }

  lemma NothingThaws(s: State)
    ensures AllFrozen(s, s)
  {
    forall o | o in s.operations && Terminal(s.operations[o]) ensures Frozen(s.operations[o], s.operations[o]) {
      FrozenSelf(s.operations[o]);
    }
  }

  /** Through every sequence of steps that saves no late row, terminal operations stay frozen with all their rows: only
      a missing listing of a detail row, and an Elastic calculation's summary, may still be written. */
  lemma {:induction false} RunFreezes(s: State, commands: seq<Command>)
    requires Inv(s) && Timely(s, commands)
    ensures AllFrozen(s, Run(s, commands))
  {
    if commands == [] {
      NothingThaws(s);
    } else {
      var most := commands[..|commands| - 1];
      RunFreezes(s, most);
      RunSettles(s, most);
      NextFreezes(Run(s, most), commands[|commands| - 1]);
      AllFrozenTransitive(s, Run(s, most), Run(s, commands));
    }
  }

  lemma ReachableInv(w: World, commands: seq<Command>)
    ensures Inv(Run(Initial(w), commands))
  {
    RunSettles(Initial(w), commands);
  }

  ghost predicate ReachedBy(s: State, w: World, commands: seq<Command>) {
    s == Run(Initial(w), commands)
  }

  ghost predicate Reachable(s: State) { exists w, commands :: ReachedBy(s, w, commands) }

  lemma ReachableIsSound(s: State)
    requires Reachable(s)
    ensures Inv(s)
  {
    var w, commands :| ReachedBy(s, w, commands);
    ReachableInv(w, commands);
  }

  lemma NextReachable(s: State, c: Command)
    requires Reachable(s)
    ensures Reachable(Next(s, c)) && Grown(s, Next(s, c))
  {
    var w, commands :| ReachedBy(s, w, commands);
    ReachableIsSound(s);
    NextKeepsInv(s, c);
    assert (commands + [c])[..|commands|] == commands;
    assert ReachedBy(Next(s, c), w, commands + [c]);
  }

  lemma {:induction false} RunReachable(s: State, commands: seq<Command>)
    requires Reachable(s)
    ensures Reachable(Run(s, commands)) && Grown(s, Run(s, commands))
  {
    ReachableIsSound(s);
    RunSettles(s, commands);
    if commands != [] {
      RunReachable(s, commands[..|commands| - 1]);
      NextReachable(Run(s, commands[..|commands| - 1]), commands[|commands| - 1]);
    }
  }

  lemma NextIdFree(s: State)
    requires Reachable(s)
    ensures s.nextOperation !in s.operations && s.nextRun !in s.runs
  {
    ReachableIsSound(s);
  }

  // ---------- run status ----------

  /** A completed run has only created or terminal operations; a run with a running one is running or interrupted. */
  lemma RunStatusMeaning(w: World, commands: seq<Command>, o: nat)
    requires o in Run(Initial(w), commands).operations
    ensures var s := Run(Initial(w), commands); var op := s.operations[o];
      && op.run in s.runs
      && (op.status.Running? ==> UnderWay(s.runs[op.run].status))
      && (s.runs[op.run].status.RunCompleted? ==> op.status.Created? || Terminal(op))
  {
    ReachableInv(w, commands);
    assert Clean(Run(Initial(w), commands), Run(Initial(w), commands).operations[o]);
  }

  /** A completion that leaves every operation of the run terminal leaves the run completed, and only then changes
      it. */
  lemma CompletionClosesRun(s: State, c: Command)
    requires AllClean(s) && Completes(c) && Step(s, c).Ok?
    ensures c.operation in s.operations && c.operation in Step(s, c).value.operations
            && Terminal(Step(s, c).value.operations[c.operation])
    ensures var r := s.operations[c.operation].run; var t := Step(s, c).value;
      r in s.runs && r in t.runs && t.runs[r].status == if AllTerminal(t, r) then RunCompleted else s.runs[r].status
  {
    assert Clean(s, s.operations[c.operation]);
  }

  ghost function Users(s: State, v: nat): set<nat> { set o | o in s.operations && Uses(s.operations[o], v) }

  /** A completed check is successful exactly when it reports no error, and free of warnings exactly when it reports
      none; a completed process says which of the two it met. */
  lemma CompletionOutcome(s: State, c: Command)
    requires (c.CompleteCheck? || c.CompleteProcess?) && Step(s, c).Ok?
    ensures c.operation in Step(s, c).value.operations
    ensures var op := Step(s, c).value.operations[c.operation];
      && op.errors == c.result.errors && op.warnings == c.result.warnings && op.errors >= 0 && op.warnings >= 0
      && (c.CompleteCheck? ==>
            (SuccessfulCheck(op) <==> op.errors == 0) && (op.status.NoErrors? <==> op.errors == 0 && op.warnings == 0)
                               && (op.status.WithErrors? <==> op.errors > 0))
      && (c.CompleteProcess? ==>
            (op.status.Success? <==> op.errors == 0 && op.warnings == 0) && (op.status.WithError? <==> op.errors > 0)
                                 && op.produced == c.result.output
                                    && (op.produced.Some? ==> op.produced.value in op.outputs))
  {
    CompletionKeepsRows(s, c, c.operation);
  }

  /** Starting brings a run to life again, whatever it was; an interruption marks it, and only these two and a
      completion touch a run that exists. */
  lemma RunStatusMoves(s: State, c: Command, r: nat)
    requires Numbered(s) && r in s.runs && Step(s, c).Ok? && !Completes(c)
    ensures var t := Step(s, c).value;
      r in t.runs && t.runs[r].status == if c.Start? && s.operations[c.operation].run == r then RunRunning
                                         else if c.Interrupt? && s.operations[c.operation].run == r then RunInterrupted
                                         else s.runs[r].status
  {
  }

  lemma SubsetSize(a: set<nat>, b: set<nat>)
    requires a <= b
    ensures |a| <= |b|
  {
    assert b == a + (b - a);
  }

  /** Each file version belongs to at most one operation, as an output link or as a process result. */
  lemma OutputBelongsToOne(w: World, commands: seq<Command>, v: nat)
    ensures |Users(Run(Initial(w), commands), v)| <= 1
  {
    ReachableInv(w, commands);
    var users := Users(Run(Initial(w), commands), v);
    if users != {} { SubsetSize(users, {Min(users)}); }
  }

  // ---------- the basis of a process ----------

  /** The basis is a successful check with the process's metadata, and a confirmation row exists if it needs one. */
  ghost predicate BasedAt(s: State, p: nat)
    requires p in s.operations
  {
    var op := s.operations[p];
    op.basis.Some? && op.basis.value in s.operations && SuccessfulCheck(s.operations[op.basis.value])
    && StoredMetadata(op) == StoredMetadata(s.operations[op.basis.value])
    && (NeedsConfirmation(s.operations[op.basis.value]) ==> (op.basis.value, p) in s.confirmations)
  }

  ghost predicate Based(s: State) { forall p :: p in s.operations && s.operations[p].kind.Process? ==> BasedAt(s, p) }

  /** Some process rests on the check. */
  ghost predicate RestedOn(s: State, b: nat) {
    exists p :: p in s.operations && s.operations[p].kind.Process? && s.operations[p].basis == Some(b)
  }

  ghost predicate RestedOnUnconfirmed(s: State, b: nat) {
    exists p :: p in s.operations && s.operations[p].kind.Process? && s.operations[p].basis == Some(b)
      && (b, p) !in s.confirmations
  }

  /** The steps that keep every process on its basis: no input or parameter for a process or for a check one rests on,
      and no confirmable warning for a check with warnings on which an unconfirmed process rests. */
  ghost predicate KeepsBases(s: State, c: Command) {
    match c
    case AttachInput(o, _, _) => o in s.operations ==> !s.operations[o].kind.Process? && !RestedOn(s, o)
    case AttachParameter(o, _, _) => o in s.operations ==> !s.operations[o].kind.Process? && !RestedOn(s, o)
    case AddDetail(o, _, d) =>
      o in s.operations ==> !(d.level.WarningConfirmable? && s.operations[o].warnings != 0 && RestedOnUnconfirmed(s, o))
    case _ => true
  }

  lemma SameLevelsNeedSame(before: Operation, after: Operation)
    requires after.warnings == before.warnings && DetailsKept(before.details, after.details)
    ensures NeedsConfirmation(after) == NeedsConfirmation(before)
  {
    forall i | 0 <= i < |before.details| ensures after.details[i].level == before.details[i].level {
      assert after.details[i] == before.details[i].(listing := after.details[i].listing);
    }
    if exists i :: 0 <= i < |before.details| && before.details[i].level.WarningConfirmable? {
      var i :| 0 <= i < |before.details| && before.details[i].level.WarningConfirmable?;
      assert after.details[i].level.WarningConfirmable?;
    }
  }

  /** A detail row can only make a check with warnings need confirmation by being a confirmable warning, and that one
      does. */
  lemma AddedDetailNeeds(before: Operation, d: Detail)
    ensures var after := before.(details := before.details + [d]);
      && (d.level.WarningConfirmable? && before.warnings != 0 ==> NeedsConfirmation(after))
      && (!d.level.WarningConfirmable? && NeedsConfirmation(after) ==> NeedsConfirmation(before))
  {
    var after := before.details + [d];
    assert after[|before.details|] == d;
    assert forall i :: 0 <= i < |before.details| ==> after[i] == before.details[i];
  }

  lemma EnrichedKeeps(details: seq<Detail>, i: nat, listing: nat)
    requires i < |details| && details[i].listing.None?
    ensures DetailsKept(details, details[i := details[i].(listing := Some(listing))])
  {
  }

  /** Whether a terminal check needs confirmation changes through an added detail row only. */
  lemma StepNeeds(s: State, c: Command, b: nat)
    requires Numbered(s) && Step(s, c).Ok? && b in s.operations && Terminal(s.operations[b])
    ensures b in Step(s, c).value.operations
    ensures c.AddDetail? && c.operation == b ==>
              Step(s, c).value.operations[b] == s.operations[b].(details := s.operations[b].details + [c.detail])
    ensures !(c.AddDetail? && c.operation == b) ==>
              NeedsConfirmation(Step(s, c).value.operations[b]) == NeedsConfirmation(s.operations[b])
  {
    if c.AddDetail? && c.operation == b {
    } else if c.EnrichDetail? && c.operation == b {
      EnrichedKeeps(s.operations[b].details, c.index, c.listing);
      SameLevelsNeedSame(s.operations[b], Step(s, c).value.operations[b]);
    } else {
      StepGrows(s, c);
      assert Evolved(s.operations[b], Step(s, c).value.operations[b]);
      SameDetails(s, c, b);
    }
  }

  lemma RequestStoredAs(q: Request, op: Operation)
    requires op.scenario == q.scenario && op.inputs == q.inputs && op.params == q.params && op.logic == q.logic
    requires DistinctCodes(q.params)
    ensures StoredMetadata(op) == RequestedMetadata(q) <==> DatesInUtc(q)
  {
    InputsCanonical(q.inputs, q.inputs);
    StoredAsRequestedIff(q.params);
  }

  /** Every date a request gives is given in UTC. */
  predicate DatesInUtc(q: Request) { forall p :: p in q.params ==> InPrint(p) }

  /** A check can only be actual for a request whose dates are given in UTC. */
  lemma ActualInUtc(op: Operation, q: Request)
    requires RowsUnique(op) && ActualFor(op, q)
    ensures DatesInUtc(q)
  {
    MatchedInPrint(op.params, q.params);
  }

  /** A check with warnings needs confirmation unless its rows have informational warnings and no confirmable one. */
  lemma NeedsConfirmationIff(b: Operation)
    ensures NeedsConfirmation(b) <==>
              b.warnings != 0
              && ((forall d :: d in b.details ==> d.level != WarningConfirmable && d.level != WarningInfo)
                  || exists d :: d in b.details && d.level == WarningConfirmable)
  {
    if d :| d in b.details && d.level == WarningConfirmable {
      var i :| 0 <= i < |b.details| && b.details[i] == d;
      assert b.details[i].level.WarningConfirmable?;
    }
  }

  /** For an actual basis and rows that fit, creating a process without confirmation raises exactly when the check has
      warnings and either no row of a warning level or one of a confirmable warning; with confirmation it never does. */
  lemma UnconfirmedRaisesIff(s: State, q: Request, basis: nat, into: Option<nat>)
    requires basis in s.operations && ActualFor(s.operations[basis], q)
    requires Inserting(s, NewProcess(s, q, basis, into)).Ok?
    ensures var b := s.operations[basis];
      CreatingProcess(s, q, basis, into, false).Raised? <==>
        b.warnings != 0
        && ((forall d :: d in b.details ==> d.level != WarningConfirmable && d.level != WarningInfo)
            || exists d :: d in b.details && d.level == WarningConfirmable)
    ensures CreatingProcess(s, q, basis, into, true).Ok?
  {
    NeedsConfirmationIff(s.operations[basis]);
  }

  /** The basis has warnings, and no row of a warning level or one of a confirmable warning. */
  ghost predicate WarnedBasis(s: State, p: nat)
    requires p in s.operations
  {
    s.operations[p].basis.Some? && s.operations[p].basis.value in s.operations
    && var b := s.operations[s.operations[p].basis.value];
       b.warnings != 0
       && ((forall d :: d in b.details ==> d.level != WarningConfirmable && d.level != WarningInfo)
           || exists d :: d in b.details && d.level == WarningConfirmable)
  }

  lemma WarnedBasisConfirmed(s: State, p: nat)
    requires p in s.operations && BasedAt(s, p)
    ensures WarnedBasis(s, p) ==> (s.operations[p].basis.value, p) in s.confirmations
  {
    NeedsConfirmationIff(s.operations[s.operations[p].basis.value]);
  }

  lemma NewProcessBased(s: State, q: Request, basis: nat, into: Option<nat>, confirmed: bool)
    requires Numbered(s) && AllUnique(s) && CreatingProcess(s, q, basis, into, confirmed).Ok?
    ensures var t := CreatingProcess(s, q, basis, into, confirmed).value;
      s.nextOperation in t.operations && BasedAt(t, s.nextOperation)
      && (WarnedBasis(t, s.nextOperation) ==> (basis, s.nextOperation) in t.confirmations)
  {
    NeedsConfirmationIff(s.operations[basis]);
    ActualInUtc(s.operations[basis], q);
    RequestStoredAs(q, NewProcess(s, q, basis, into));
    assert basis != s.nextOperation;
  }

  lemma SameStored(before: Operation, after: Operation)
    requires SameIdentity(before, after) && after.inputs == before.inputs && after.params == before.params
    ensures StoredMetadata(after) == StoredMetadata(before)
  {
  }

  lemma MetadataKept(s: State, c: Command, p: nat)
    requires Inv(s) && Step(s, c).Ok? && p in s.operations && s.operations[p].kind.Process? && BasedAt(s, p)
    requires !Attaches(c, p) && !Attaches(c, s.operations[p].basis.value)
    ensures var t := Step(s, c).value; var b := s.operations[p].basis.value;
      && p in t.operations && b in t.operations && SameIdentity(s.operations[p], t.operations[p])
      && SuccessfulCheck(t.operations[b]) && StoredMetadata(t.operations[p]) == StoredMetadata(t.operations[b])
  {
    var t, b := Step(s, c).value, s.operations[p].basis.value;
    StepGrows(s, c);
    assert Evolved(s.operations[p], t.operations[p]) && Evolved(s.operations[b], t.operations[b]);
    FrozenBasis(s, t, b);
    StepKeepsRows(s, c, p);
    StepKeepsRows(s, c, b);
    SameStored(s.operations[p], t.operations[p]);
    SameStored(s.operations[b], t.operations[b]);
  }

  lemma ConfirmationKept(s: State, c: Command, p: nat)
    requires Inv(s) && Step(s, c).Ok? && p in s.operations && s.operations[p].kind.Process? && BasedAt(s, p)
             && KeepsBases(s, c)
    ensures var t := Step(s, c).value; var b := s.operations[p].basis.value;
      && b in t.operations && (NeedsConfirmation(t.operations[b]) ==> (b, p) in t.confirmations)
  {
    var t, b := Step(s, c).value, s.operations[p].basis.value;
    StepGrows(s, c);
    StepNeeds(s, c, b);
    if c.AddDetail? && c.operation == b { AddedDetailNeeds(s.operations[b], c.detail); }
  }

  lemma ProcessKeepsBasis(s: State, c: Command, p: nat)
    requires Inv(s) && Step(s, c).Ok? && p in s.operations && s.operations[p].kind.Process? && BasedAt(s, p)
             && KeepsBases(s, c)
    ensures p in Step(s, c).value.operations && BasedAt(Step(s, c).value, p)
  {
    var b := s.operations[p].basis.value;
    assert RestedOn(s, b);
    MetadataKept(s, c, p);
    ConfirmationKept(s, c, p);
  }

  lemma NewProcessStep(s: State, c: Command, p: nat)
    requires Inv(s) && Step(s, c).Ok?
    requires p in Step(s, c).value.operations && p !in s.operations && Step(s, c).value.operations[p].kind.Process?
    ensures BasedAt(Step(s, c).value, p)
  {
    StepNewborns(s, c, p);
    NewProcessBased(s, c.request, c.basis, c.into, c.confirmed);
  }

  lemma StepKeepsBased(s: State, c: Command)
    requires Inv(s) && Based(s) && Step(s, c).Ok? && KeepsBases(s, c)
    ensures Based(Step(s, c).value)
  {
    var t := Step(s, c).value;
    forall p | p in t.operations && t.operations[p].kind.Process? ensures BasedAt(t, p) {
      if p in s.operations {
        StepGrows(s, c);
        assert Evolved(s.operations[p], t.operations[p]);
        ProcessKeepsBasis(s, c, p);
      } else {
        NewProcessStep(s, c, p);
      }
    }
  }

  lemma StoredSizes(op: Operation)
    ensures |StoredMetadata(op).inputs| == |op.inputs| && |StoredMetadata(op).params| == |op.params|
  {
    SortByContents(op.inputs, InputOrder);
    SortByContents(StoredTexts(op.params), CodeOrder);
  }

  lemma MoreRowsDiffer(a: Operation, b: Operation)
    requires |a.inputs| != |b.inputs| || |a.params| != |b.params|
    ensures StoredMetadata(a) != StoredMetadata(b)
  {
    StoredSizes(a);
    StoredSizes(b);
  }

  lemma SameSizes(a: Operation, b: Operation)
    requires StoredMetadata(a) == StoredMetadata(b)
    ensures |a.inputs| == |b.inputs| && |a.params| == |b.params|
  {
    StoredSizes(a);
    StoredSizes(b);
  }

  /** An attachment to a process, or to the check a process rests on, parts the two. */
  lemma AttachParts(s: State, c: Command, p: nat)
    requires Inv(s) && Step(s, c).Ok? && p in s.operations && s.operations[p].kind.Process? && BasedAt(s, p)
    requires Attaches(c, p) || Attaches(c, s.operations[p].basis.value)
    ensures p in Step(s, c).value.operations && Step(s, c).value.operations[p].kind.Process?
            && !BasedAt(Step(s, c).value, p)
  {
    var t, b := Step(s, c).value, s.operations[p].basis.value;
    var other := if c.operation == p then b else p;
    assert b != p;
    SameSizes(s.operations[p], s.operations[b]);
    StepKeepsRows(s, c, other);
    OnlyEdited(s, c, other);
    MoreRowsDiffer(t.operations[p], t.operations[b]);
  }

  lemma WarningParts(s: State, c: Command, p: nat)
    requires Inv(s) && Step(s, c).Ok? && p in s.operations && s.operations[p].kind.Process? && BasedAt(s, p)
    requires c.AddDetail? && c.operation == s.operations[p].basis.value && c.detail.level.WarningConfirmable?
    requires s.operations[c.operation].warnings != 0 && (c.operation, p) !in s.confirmations
    ensures p in Step(s, c).value.operations && Step(s, c).value.operations[p].kind.Process?
            && !BasedAt(Step(s, c).value, p)
  {
    var b := c.operation;
    assert b != p;
    OnlyEdited(s, c, p);
    AddedDetailNeeds(s.operations[b], c.detail);
  }

  /** Exactly which accepted steps keep every process on a basis with the same metadata and the confirmation it
      requires. */
  lemma StepKeepsBasedIff(s: State, c: Command)
    requires Inv(s) && Based(s) && Step(s, c).Ok?
    ensures Based(Step(s, c).value) <==> KeepsBases(s, c)
  {
    if KeepsBases(s, c) {
      StepKeepsBased(s, c);
    } else if c.AddDetail? {
      var p :| p in s.operations && s.operations[p].kind.Process? && s.operations[p].basis == Some(c.operation)
               && (c.operation, p) !in s.confirmations;
      assert BasedAt(s, p);
      WarningParts(s, c, p);
    } else {
      var p :| p in s.operations && s.operations[p].kind.Process?
               && (p == c.operation || s.operations[p].basis == Some(c.operation));
      assert BasedAt(s, p);
      AttachParts(s, c, p);
    }
  }

  predicate RaisesOr(s: State, c: Command, kept: bool) { Step(s, c).Ok? ==> kept }

  ghost predicate KeepsBasesThroughout(s: State, commands: seq<Command>) {
    commands == []
    || (KeepsBasesThroughout(s, commands[..|commands| - 1])
        && RaisesOr(Run(s, commands[..|commands| - 1]), commands[|commands| - 1],
                    KeepsBases(Run(s, commands[..|commands| - 1]), commands[|commands| - 1])))
  }

  ghost predicate ThroughoutAt(s: State, commands: seq<Command>, n: nat)
    requires n < |commands|
  {
    var t := Run(s, commands[..n]);
    Step(t, commands[n]).Ok? ==> KeepsBases(t, commands[n])
  }

  lemma {:induction false} ThroughoutIff(s: State, commands: seq<Command>)
    ensures KeepsBasesThroughout(s, commands) <==> forall n: nat :: n < |commands| ==> ThroughoutAt(s, commands, n)
    decreases |commands|
  {
    if commands != [] {
      var most := commands[..|commands| - 1];
      ThroughoutIff(s, most);
      forall n: nat | n < |most| ensures ThroughoutAt(s, most, n) <==> ThroughoutAt(s, commands, n) {
        assert most[n] == commands[n] && most[..n] == commands[..n];
      }
      assert KeepsBasesThroughout(s, commands) <==> KeepsBasesThroughout(s, most) && ThroughoutAt(s, commands, |most|);
    }
  }


  lemma {:induction false} RunKeepsBased(s: State, commands: seq<Command>)
    requires Inv(s) && Based(s) && KeepsBasesThroughout(s, commands)
    ensures Based(Run(s, commands))
  {
    if commands != [] {
      var most := commands[..|commands| - 1];
      RunKeepsBased(s, most);
      RunSettles(s, most);
      if Step(Run(s, most), commands[|commands| - 1]).Ok? { StepKeepsBased(Run(s, most), commands[|commands| - 1]); }
    }
  }

  /** Whenever only such steps led to a state, each process in it rests on a check that is still successful, has the
      same metadata and, where it requires confirmation, is linked to the process by a confirmation row. */
  lemma EveryProcessIsBased(w: World, commands: seq<Command>)
    requires KeepsBasesThroughout(Initial(w), commands)
    ensures Based(Run(Initial(w), commands))
    ensures var s := Run(Initial(w), commands);
      forall p :: p in s.operations && s.operations[p].kind.Process? && WarnedBasis(s, p) ==>
        (s.operations[p].basis.value, p) in s.confirmations
  {
    RunKeepsBased(Initial(w), commands);
    var s := Run(Initial(w), commands);
    forall p | p in s.operations && s.operations[p].kind.Process? && WarnedBasis(s, p)
      ensures (s.operations[p].basis.value, p) in s.confirmations
    {
      WarnedBasisConfirmed(s, p);
    }
  }

  /** What the services do is enough: they attach inputs and parameters to new operations and to API operations, and
      save rows through objects that show a terminal status as soon as there is one. */
  lemma TimelyStepKeepsBases(s: State, c: Command)
    requires Inv(s) && Based(s) && Step(s, c).Ok? && !Late(s, c)
    requires (c.AttachInput? || c.AttachParameter?) ==>
               c.operation in s.operations && !s.operations[c.operation].kind.Process?
    ensures KeepsBases(s, c)
  {
    forall p, b | p in s.operations && s.operations[p].kind.Process? && s.operations[p].basis == Some(b)
      ensures b in s.operations && Terminal(s.operations[b])
    {
      assert BasedAt(s, p);
    }
  }

  predicate Disciplined(s: State, c: Command) {
    Step(s, c).Ok? ==>
      !Late(s, c)
      && (c.AttachInput? || c.AttachParameter? ==>
            c.operation in s.operations && !s.operations[c.operation].kind.Process?)
  }

  predicate DisciplinedRun(s: State, commands: seq<Command>) {
    commands == []
    || (DisciplinedRun(s, commands[..|commands| - 1])
        && Disciplined(Run(s, commands[..|commands| - 1]), commands[|commands| - 1]))
  }

  ghost predicate DisciplinedAt(s: State, commands: seq<Command>, n: nat)
    requires n < |commands|
  {
    var t := Run(s, commands[..n]);
    Disciplined(t, commands[n])
  }

  lemma {:induction false} DisciplinedRunIff(s: State, commands: seq<Command>)
    ensures DisciplinedRun(s, commands) <==> forall n: nat :: n < |commands| ==> DisciplinedAt(s, commands, n)
    decreases |commands|
  {
    if commands != [] {
      var most := commands[..|commands| - 1];
      DisciplinedRunIff(s, most);
      forall n: nat | n < |most| ensures DisciplinedAt(s, most, n) <==> DisciplinedAt(s, commands, n) {
        assert most[n] == commands[n] && most[..n] == commands[..n];
      }
      assert DisciplinedRun(s, commands) <==> DisciplinedRun(s, most) && DisciplinedAt(s, commands, |most|);
    }
  }


  /** Over runs that save no late row and attach to no process, every process is based. */
  lemma {:induction false} DisciplinedRunIsBased(w: World, commands: seq<Command>)
    requires DisciplinedRun(Initial(w), commands)
    ensures Based(Run(Initial(w), commands))
  {
    if commands != [] {
      var most, last := commands[..|commands| - 1], commands[|commands| - 1];
      DisciplinedRunIsBased(w, most);
      ReachableInv(w, most);
      if Step(Run(Initial(w), most), last).Ok? {
        TimelyStepKeepsBases(Run(Initial(w), most), last);
        StepKeepsBased(Run(Initial(w), most), last);
      }
    }
  }

  // ---------- rows saved late ----------

  ghost predicate SuccessfulBasis(s: State, b: nat, p: nat) {
    b in s.operations && p in s.operations && Terminal(s.operations[b]) && s.operations[p].kind.Process?
      && s.operations[p].basis == Some(b)
  }

  /** Through the object a check was created with, a parameter is accepted for the check long after it completed: the
      check is no longer frozen and the process on it is parted from it. This works for every fitting parameter with a
      new code. */
  lemma LateParameterThaws(s: State, b: nat, p: nat, param: ParamSpec)
    requires Inv(s) && Based(s) && SuccessfulBasis(s, b, p) && ParamFits(param)
             && CodeFree(s.operations[b].params, param)
    ensures var c := AttachParameter(b, Created, param);
      Step(s, c).Ok? && !AllFrozen(s, Next(s, c)) && !Based(Next(s, c))
  {
    var c := AttachParameter(b, Created, param);
    StepFreezesIff(s, c);
    assert RestedOn(s, b);
    StepKeepsBasedIff(s, c);
  }

  /** An open process accepts a parameter of its own, and is parted from its basis by it. */
  lemma OpenProcessParts(s: State, p: nat, param: ParamSpec)
    requires Inv(s) && Based(s) && Open(s, p) && s.operations[p].kind.Process?
    requires ParamFits(param) && CodeFree(s.operations[p].params, param)
    ensures var c := AttachParameter(p, s.operations[p].status, param);
      Step(s, c).Ok? && !Late(s, c) && !Based(Next(s, c))
  {
    StepKeepsBasedIff(s, AttachParameter(p, s.operations[p].status, param));
  }

  // ---------- a reachable example ----------

  function ExampleWorld(reasons: ReasonLists): World { World(map[1 := Wb], map[], map[], reasons) }

  const EXAMPLE_REQUEST := Request(Scenario(Wb, DiscountsExcel, Excel, 1), [], [], "1")

  const CLEAN_RESULT := ShellResult(0, 0, 0, None)

  lemma InitialReachable(w: World)
    ensures Reachable(Initial(w))
  {
    assert ReachedBy(Initial(w), w, []);
  }

  /** A state with one completed check made from the example's request. */
  ghost predicate IsExampleChecked(s: State, reasons: ReasonLists) {
    && s.world == ExampleWorld(reasons) && s.operations.Keys == {1} && s.nextOperation == 2
    && ActualFor(s.operations[1], EXAMPLE_REQUEST) && s.operations[1].warnings == 0 && s.operations[1].params == []
    && s.operations[1].run in s.runs && s.runs[s.operations[1].run].scenario == EXAMPLE_REQUEST.scenario
  }

  predicate ExampleFits(q: Request) {
    q.scenario == EXAMPLE_REQUEST.scenario && q.inputs == [] && ParamsFit(q.params) && q.logic == "1"
  }

  /** A state with one check just created. */
  ghost predicate IsExampleCreated(s: State, q: Request, reasons: ReasonLists) {
    && s.world == ExampleWorld(reasons) && s.operations.Keys == {1} && s.nextOperation == 2 && s.confirmations == []
    && s.operations[1] == NewOperation(q.scenario, Check, NoStep, 1, q.logic, None, [], q.params)
    && 1 in s.runs && s.runs[1].scenario == q.scenario
  }

  lemma ExampleCreated(q: Request, reasons: ReasonLists) returns (s: State)
    requires ExampleFits(q)
    ensures Reachable(s) && IsExampleCreated(s, q, reasons)
  {
    InitialReachable(ExampleWorld(reasons));
    s := Next(Initial(ExampleWorld(reasons)), CreateCheck(q, None, true));
    NextReachable(Initial(ExampleWorld(reasons)), CreateCheck(q, None, true));
  }

  lemma ExampleCheck(reasons: ReasonLists) returns (s: State)
    ensures Reachable(s) && IsExampleChecked(s, reasons)
  {
    var created := ExampleCreated(EXAMPLE_REQUEST, reasons);
    s := Next(created, CompleteCheck(1, CLEAN_RESULT));
    NextReachable(created, CompleteCheck(1, CLEAN_RESULT));
    RequestStoredAs(EXAMPLE_REQUEST, s.operations[1]);
  }

  lemma ExampleProcess(checked: State, reasons: ReasonLists) returns (s: State)
    requires Reachable(checked) && IsExampleChecked(checked, reasons)
    ensures Reachable(s) && Based(s) && SuccessfulBasis(s, 1, 2) && Open(s, 2)
    ensures s.operations[1].params == s.operations[2].params == []
  {
    var c := CreateProcess(EXAMPLE_REQUEST, 1, None, false, true);
    s := Next(checked, c);
    NextReachable(checked, c);
    ReachableIsSound(checked);
    NewProcessBased(checked, EXAMPLE_REQUEST, 1, None, false);
  }

  /** A run to a state where both happen: a completed check and an open process on it. */
  lemma AttachmentsExample(param: ParamSpec, reasons: ReasonLists) returns (s: State)
    requires ParamFits(param)
    ensures Reachable(s) && Based(s) && SuccessfulBasis(s, 1, 2) && Open(s, 2)
    ensures Step(s, AttachParameter(2, s.operations[2].status, param)).Ok?
            && !Based(Next(s, AttachParameter(2, s.operations[2].status, param)))
    ensures Step(s, AttachParameter(1, Created, param)).Ok? && !Based(Next(s, AttachParameter(1, Created, param)))
            && !AllFrozen(s, Next(s, AttachParameter(1, Created, param)))
  {
    var checked := ExampleCheck(reasons);
    s := ExampleProcess(checked, reasons);
    ReachableIsSound(s);
    OpenProcessParts(s, 2, param);
    LateParameterThaws(s, 1, 2, param);
  }

  const EXAMPLE_INFO := Detail(1, "", "", WarningInfo, None)

  const EXAMPLE_WARNING := Detail(2, "", "", WarningConfirmable, None)

  const WARNED_RESULT := ShellResult(0, 0, 1, None)

  /** A state with one check completed with a warning that needs no confirmation. */
  ghost predicate IsExampleWarned(s: State, reasons: ReasonLists) {
    && s.world == ExampleWorld(reasons) && s.operations.Keys == {1} && s.nextOperation == 2
    && ActualFor(s.operations[1], EXAMPLE_REQUEST) && s.operations[1].warnings == 1
    && s.operations[1].details == [EXAMPLE_INFO] && s.confirmations == []
    && s.operations[1].run in s.runs && s.runs[s.operations[1].run].scenario == EXAMPLE_REQUEST.scenario
  }

  lemma ExampleDetailed(created: State, reasons: ReasonLists) returns (s: State)
    requires Reachable(created) && IsExampleCreated(created, EXAMPLE_REQUEST, reasons)
    ensures Reachable(s) && s == Edit(created, 1, created.operations[1].(details := [EXAMPLE_INFO]))
  {
    s := Next(created, AddDetail(1, Created, EXAMPLE_INFO));
    NextReachable(created, AddDetail(1, Created, EXAMPLE_INFO));
    assert [] + [EXAMPLE_INFO] == [EXAMPLE_INFO];
  }

  lemma ExampleWarned(reasons: ReasonLists) returns (s: State)
    ensures Reachable(s) && IsExampleWarned(s, reasons)
  {
    var created := ExampleCreated(EXAMPLE_REQUEST, reasons);
    var detailed := ExampleDetailed(created, reasons);
    s := Next(detailed, CompleteCheck(1, WARNED_RESULT));
    NextReachable(detailed, CompleteCheck(1, WARNED_RESULT));
    RequestStoredAs(EXAMPLE_REQUEST, s.operations[1]);
  }

  lemma ExampleUnconfirmed(warned: State, reasons: ReasonLists) returns (s: State)
    requires Reachable(warned) && IsExampleWarned(warned, reasons)
    ensures Reachable(s) && Based(s) && SuccessfulBasis(s, 1, 2) && s.operations[1] == warned.operations[1]
    ensures (1, 2) !in s.confirmations
  {
    var c := CreateProcess(EXAMPLE_REQUEST, 1, None, false, true);
    ReachableIsSound(warned);
    assert !NeedsConfirmation(warned.operations[1]) by { assert warned.operations[1].details[0].level.WarningInfo?; }
    s := Next(warned, c);
    NextReachable(warned, c);
    NewProcessBased(warned, EXAMPLE_REQUEST, 1, None, false);
  }

  /** A run to a state where a confirmable warning, saved late for a check with warnings, leaves its process without the
      confirmation it now requires. */
  lemma LateWarningExample(reasons: ReasonLists) returns (s: State)
    ensures Reachable(s) && Based(s) && SuccessfulBasis(s, 1, 2)
    ensures var c := AddDetail(1, Created, EXAMPLE_WARNING);
      Step(s, c).Ok? && Late(s, c) && !Based(Next(s, c))
  {
    var warned := ExampleWarned(reasons);
    s := ExampleUnconfirmed(warned, reasons);
    ReachableIsSound(s);
    var c := AddDetail(1, Created, EXAMPLE_WARNING);
    WarningFits(reasons);
    assert DetailFree(s.operations[1].details, EXAMPLE_WARNING);
    assert RestedOnUnconfirmed(s, 1);
    StepKeepsBasedIff(s, c);
  }

  lemma WarningFits(reasons: ReasonLists)
    ensures DetailTextFits(ExampleWorld(reasons), EXAMPLE_REQUEST.scenario, EXAMPLE_WARNING)
  {
  }

  lemma ExampleSuccessful(q: Request, reasons: ReasonLists) returns (s: State)
    requires ExampleFits(q)
    ensures Reachable(s) && s.operations.Keys == {1} && SuccessfulCheck(s.operations[1])
    ensures var op := s.operations[1];
      op.scenario == q.scenario && op.inputs == q.inputs && op.params == q.params && op.logic == q.logic
  {
    var created := ExampleCreated(q, reasons);
    s := Next(created, CompleteCheck(1, CLEAN_RESULT));
    NextReachable(created, CompleteCheck(1, CLEAN_RESULT));
  }

  /** A request with one parameter, of the given date. */
  function DatedRequest(date: Date): Request {
    Request(EXAMPLE_REQUEST.scenario, [], [ParamSpec("threshold", "55", "store", "", Some(date))], "1")
  }

  /** For any date outside UTC, a run to a successful check made from a request with it, which is not actual for that
      request. */
  lemma OffsetDateExample(date: Date, reasons: ReasonLists) returns (s: State)
    requires date.zone != Aware(0)
    ensures Reachable(s) && s.operations.Keys == {1} && SuccessfulCheck(s.operations[1])
    ensures var op, q := s.operations[1], DatedRequest(date);
      && op.scenario == q.scenario && op.inputs == q.inputs && op.params == q.params && op.logic == q.logic
      && !ActualFor(op, q)
  {
    s := ExampleSuccessful(DatedRequest(date), reasons);
    ReachableIsSound(s);
    DatedNeverActual(s.operations[1], date);
  }

  lemma DatedNeverActual(op: Operation, date: Date)
    requires RowsUnique(op) && date.zone != Aware(0)
    ensures !ActualFor(op, DatedRequest(date))
  {
    assert !InPrint(DatedRequest(date).params[0]);
    if ActualFor(op, DatedRequest(date)) { ActualInUtc(op, DatedRequest(date)); }
  }
}
