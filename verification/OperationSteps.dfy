/** Runs and operations: what each service step does to the stored rows, and what every sequence of steps keeps. */
module OperationSteps {
  import opened Common
  import opened OperationMetadata
  import opened OperationTypes
  import opened ReasonCodes

  datatype OperationKind = Check | Process | NotApplicable

  /** Check and process statuses together; "completed_with_warnings" is spelled the same for both. */
  datatype Status = Created | Running | NoErrors | WithWarnings | WithErrors | Success | WithError | InterruptedFailed

  datatype RunStatus = RunCreated | RunRunning | RunCompleted | RunInterrupted

  datatype MessageLevel = Info | WarningConfirmable | WarningInfo | Error | Critical

  datatype FileScope = FileScope(store: nat, marketplace: Marketplace, module_: OperationModule)

  datatype ListingScope = ListingScope(store: nat, marketplace: Marketplace)

  datatype RunRow = RunRow(scenario: Scenario, status: RunStatus)

  datatype Detail = Detail(rowNo: nat, reason: string, problem: string, level: MessageLevel, listing: Option<nat>)

  /** An operation with the rows that belong to it: input links, parameter snapshots in id order, detail rows, output
      links and, for a process, the file version of its result. */
  datatype Operation = Operation(scenario: Scenario, kind: OperationKind, step: StepCode, run: nat, logic: string,
                                 basis: Option<nat>,
                                 status: Status, errors: int, warnings: int, summary: nat,
                                 inputs: seq<InputSpec>, params: seq<ParamSpec>, details: seq<Detail>,
                                 outputs: set<nat>, produced: Option<nat>)

  /** A request for a check or a process. */
  datatype Request = Request(scenario: Scenario, inputs: seq<InputSpec>, params: seq<ParamSpec>, logic: string)

  datatype ShellResult = ShellResult(summary: nat, errors: int, warnings: int, output: Option<nat>)

  /** What is given beforehand: stores, file versions, listings and the lists of reason codes. */
  datatype World = World(stores: map<nat, Marketplace>, versions: map<nat, FileScope>, listings: map<nat, ListingScope>,
                         reasons: ReasonLists)

  /** Confirmation rows are pairs of a check and a process, in the order they were recorded. */
  datatype State = State(world: World, runs: map<nat, RunRow>, operations: map<nat, Operation>,
                         confirmations: seq<(nat, nat)>,
                         nextRun: nat, nextOperation: nat)

  /** `allowed` is the outcome of the permission check, true where none is made. `seen` is the status of the operation
      object the caller saves a row for, which the stored row may have left behind. */
  datatype Command =
    | CreateRun(scenario: Scenario)
    | CreateCheck(request: Request, into: Option<nat>, allowed: bool)
    | CreateProcess(request: Request, basis: nat, into: Option<nat>, confirmed: bool, allowed: bool)
    | CreateApi(scenario: Scenario, step: StepCode, logic: string, into: Option<nat>, allowed: bool)
    | Start(operation: nat)
    | CompleteCheck(operation: nat, result: ShellResult)
    | CompleteProcess(operation: nat, result: ShellResult)
    | CompleteApi(operation: nat, status: Status, result: ShellResult)
    | Interrupt(operation: nat, note: Option<nat>)
    | AttachInput(operation: nat, seen: Status, input: InputSpec)
    | AttachParameter(operation: nat, seen: Status, param: ParamSpec)
    | AddDetail(operation: nat, seen: Status, detail: Detail)
    | AddOutput(operation: nat, seen: Status, version: nat)
    | Confirm(check: nat, operation: nat, seen: Status)
    | EnrichDetail(operation: nat, index: nat, listing: nat)
    | SaveSummary(operation: nat, summary: nat)

  const MAX_COUNT := 2147483647

  // ---------- predicates of the models ----------

  predicate ValidStatus(kind: OperationKind, status: Status) {
    if kind.Check? then !status.Success? && !status.WithError? else !status.NoErrors? && !status.WithErrors?
  }

  predicate TerminalStatus(kind: OperationKind, status: Status) {
    ValidStatus(kind, status) && !status.Created? && !status.Running?
  }

  predicate Terminal(op: Operation) { TerminalStatus(op.kind, op.status) }

  predicate SuccessfulCheck(op: Operation) {
    op.kind.Check? && (op.status.NoErrors? || op.status.WithWarnings?) && op.errors == 0
  }

  predicate Counts(r: ShellResult) { 0 <= r.errors <= MAX_COUNT && 0 <= r.warnings <= MAX_COUNT }

  /** Step codes and the not-applicable type belong to the two API modes, and to them alone. */
  predicate StepFits(scenario: Scenario, kind: OperationKind, step: StepCode) {
    if scenario.mode.Api? && scenario.marketplace.Wb? then IsWbStep(step) && kind.NotApplicable?
    else if scenario.mode.Api? && scenario.marketplace.Ozon? then IsOzonStep(step) && kind.NotApplicable?
    else step.NoStep? && !kind.NotApplicable?
  }

  predicate StoreFits(stores: map<nat, Marketplace>, scenario: Scenario) {
    && (scenario.marketplace.Wb? || scenario.marketplace.Ozon?)
    && scenario.store in stores && stores[scenario.store] == scenario.marketplace
  }

  predicate BasisFits(operations: map<nat, Operation>, op: Operation) {
    match op.kind
    case Check => op.basis.None?
    case Process => op.basis.Some? && op.basis.value in operations && SuccessfulCheck(operations[op.basis.value])
    case NotApplicable => true
  }

  /** The validation every save of an operation repeats. */
  predicate Clean(s: State, op: Operation) {
    && ValidStatus(op.kind, op.status) && StoreFits(s.world.stores, op.scenario)
    && op.run in s.runs && s.runs[op.run].scenario == op.scenario
    && StepFits(op.scenario, op.kind, op.step) && BasisFits(s.operations, op)
  }

  predicate LogicFits(logic: string) { 0 < |logic| <= 128 }

  predicate InputFits(versions: map<nat, FileScope>, scenario: Scenario, i: InputSpec) {
    && i.version in versions && versions[i.version] == FileScope(scenario.store, scenario.marketplace, scenario.module_)
    && 0 < |i.role| <= 64 && 0 <= i.ordinal <= MAX_COUNT
  }

  predicate PlaceFree(inputs: seq<InputSpec>, i: InputSpec) {
    forall k :: 0 <= k < |inputs| ==> inputs[k].role != i.role || inputs[k].ordinal != i.ordinal
  }

  predicate CodeFree(params: seq<ParamSpec>, p: ParamSpec) {
    forall k :: 0 <= k < |params| ==> params[k].code != p.code
  }

  /** A parameter row that passes validation: an empty JSON value does not. */
  predicate ParamFits(p: ParamSpec) {
    && 0 < |p.code| <= 128 && |p.version| <= 128 && (p.source == "store" || p.source == "system")
    && p.value != "null" && p.value != "\"\"" && p.value != "[]" && p.value != "{}"
  }

  predicate InputsFit(versions: map<nat, FileScope>, scenario: Scenario, inputs: seq<InputSpec>) {
    DistinctPlaces(inputs) && forall k :: 0 <= k < |inputs| ==> InputFits(versions, scenario, inputs[k])
  }

  predicate ParamsFit(params: seq<ParamSpec>) {
    DistinctCodes(params) && forall k :: 0 <= k < |params| ==> ParamFits(params[k])
  }

  predicate NeedsConfirmation(op: Operation) {
    op.warnings != 0
    && ((forall i :: 0 <= i < |op.details| ==>
           !op.details[i].level.WarningConfirmable? && !op.details[i].level.WarningInfo?)
        || exists i :: 0 <= i < |op.details| && op.details[i].level.WarningConfirmable?)
  }

  // ---------- metadata and actuality ----------

  datatype Metadata = Metadata(scenario: Scenario, inputs: seq<Tuple>, params: seq<Tuple>, logic: string)

  function StoredMetadata(op: Operation): Metadata {
    Metadata(op.scenario, StoredInputs(op.inputs), StoredParams(op.params), op.logic)
  }

  function RequestedMetadata(q: Request): Metadata {
    Metadata(q.scenario, RequestedInputs(q.inputs), RequestedParams(q.params), q.logic)
  }

  predicate ActualFor(op: Operation, q: Request) { SuccessfulCheck(op) && StoredMetadata(op) == RequestedMetadata(q) }

  // ---------- steps ----------

  function PutRun(s: State, scenario: Scenario): State {
    s.(runs := s.runs[s.nextRun := RunRow(scenario, RunCreated)], nextRun := s.nextRun + 1)
  }

  function Put(s: State, op: Operation): State {
    s.(operations := s.operations[s.nextOperation := op], nextOperation := s.nextOperation + 1)
  }

  function Edit(s: State, o: nat, op: Operation): State { s.(operations := s.operations[o := op]) }

  function SetRun(s: State, r: nat, status: RunStatus): State {
    if r in s.runs then s.(runs := s.runs[r := s.runs[r].(status := status)]) else s
  }

  function NewOperation(scenario: Scenario, kind: OperationKind, step: StepCode, run: nat, logic: string,
                        basis: Option<nat>, inputs: seq<InputSpec>, params: seq<ParamSpec>): Operation {
    Operation(scenario, kind, step, run, logic, basis, Created, 0, 0, 0, inputs, params, [], {}, None)
  }

  predicate Open(s: State, o: nat) { o in s.operations && !Terminal(s.operations[o]) }

  /** The state in which the operation's run exists, and that run. */
  function WithRun(s: State, scenario: Scenario, into: Option<nat>): (State, nat) {
    if into.Some? then (s, into.value) else (PutRun(s, scenario), s.nextRun)
  }

  function CreatingRun(s: State, scenario: Scenario): Result<State> {
    if StoreFits(s.world.stores, scenario) then Ok(PutRun(s, scenario)) else Raised
  }

  /** Saves a new operation with its input links and parameter snapshots, all or nothing. */
  function Inserting(s: State, op: Operation): Result<State> {
    if Clean(s, op) && LogicFits(op.logic) && InputsFit(s.world.versions, op.scenario, op.inputs)
       && ParamsFit(op.params) then Ok(Put(s, op))
    else Raised
  }

  function CreatingCheck(s: State, q: Request, into: Option<nat>): Result<State> {
    var (t, r) := WithRun(s, q.scenario, into);
    Inserting(t, NewOperation(q.scenario, Check, NoStep, r, q.logic, None, q.inputs, q.params))
  }

  function CreatingApi(s: State, scenario: Scenario, step: StepCode, logic: string, into: Option<nat>): Result<State> {
    var api := scenario.(mode := Api);
    var (t, r) := WithRun(s, api, into);
    Inserting(t, NewOperation(api, NotApplicable, step, r, logic, None, [], []))
  }

  function NewProcess(s: State, q: Request, basis: nat, into: Option<nat>): Operation
    requires basis in s.operations
  {
    var r := if into.Some? then into.value else s.operations[basis].run;
    NewOperation(q.scenario, Process, NoStep, r, q.logic, Some(basis), q.inputs, q.params)
  }

  function CreatingProcess(s: State, q: Request, basis: nat, into: Option<nat>, confirmed: bool): Result<State> {
    if basis !in s.operations || !ActualFor(s.operations[basis], q) then Raised
    else if NeedsConfirmation(s.operations[basis]) && !confirmed then Raised
    else
      var t := Inserting(s, NewProcess(s, q, basis, into));
      if t.Raised? then Raised
      else if confirmed then Ok(t.value.(confirmations := t.value.confirmations + [(basis, s.nextOperation)]))
      else t
  }

  function Starting(s: State, o: nat): Result<State> {
    if !Open(s, o) then Raised
    else Ok(SetRun(Edit(s, o, s.operations[o].(status := Running)), s.operations[o].run, RunRunning))
  }

  predicate AllTerminal(s: State, r: nat) {
    forall o :: o in s.operations && s.operations[o].run == r ==> Terminal(s.operations[o])
  }

  function Closed(s: State, r: nat): State { if AllTerminal(s, r) then SetRun(s, r, RunCompleted) else s }

  function Counted(op: Operation, status: Status, r: ShellResult): Operation {
    op.(status := status, summary := r.summary, errors := r.errors, warnings := r.warnings)
  }

  function CheckOutcome(r: ShellResult): Status {
    if r.errors != 0 then WithErrors else if r.warnings != 0 then WithWarnings else NoErrors
  }

  function ProcessOutcome(r: ShellResult): Status {
    if r.errors != 0 then WithError else if r.warnings != 0 then WithWarnings else Success
  }

  function CompletingCheck(s: State, o: nat, r: ShellResult): Result<State> {
    if !Open(s, o) || !s.operations[o].kind.Check? || !Counts(r) then Raised
    else Ok(Closed(Edit(s, o, Counted(s.operations[o], CheckOutcome(r), r)), s.operations[o].run))
  }

  /** No operation has the version as an output or as its result. */
  predicate VersionUnused(operations: map<nat, Operation>, v: nat) {
    forall o :: o in operations ==> v !in operations[o].outputs && operations[o].produced != Some(v)
  }

  predicate OutputFits(s: State, scenario: Scenario, output: Option<nat>) {
    output.Some? ==>
      && output.value in s.world.versions
         && s.world.versions[output.value] == FileScope(scenario.store, scenario.marketplace, scenario.module_)
      && VersionUnused(s.operations, output.value)
  }

  function OutputSet(output: Option<nat>): set<nat> { if output.Some? then {output.value} else {} }

  function CompletingProcess(s: State, o: nat, r: ShellResult): Result<State> {
    if !Open(s, o) || !s.operations[o].kind.Process? || !Counts(r) || !OutputFits(s, s.operations[o].scenario, r.output)
      then Raised
    else
      var op := s.operations[o];
      Ok(Closed(Edit(s, o, Counted(op, ProcessOutcome(r), r).(outputs := op.outputs + OutputSet(r.output),
                                                              produced := r.output)), op.run))
  }

  function CompletingApi(s: State, o: nat, status: Status, r: ShellResult): Result<State> {
    if !Open(s, o) || !s.operations[o].kind.NotApplicable? || !TerminalStatus(NotApplicable, status) || !Counts(r)
       || !OutputFits(s, s.operations[o].scenario, r.output) then Raised
    else
      var op := s.operations[o];
      Ok(Closed(Edit(s, o, Counted(op, status, r).(outputs := op.outputs + OutputSet(r.output))), op.run))
  }

  /** The summary becomes the note, unless there is none. */
  function Interrupted(op: Operation, note: Option<nat>): Operation {
    op.(status := InterruptedFailed, summary := if note.Some? then note.value else op.summary)
  }

  function Interrupting(s: State, o: nat, note: Option<nat>): Result<State> {
    if !Open(s, o) then Raised
    else Ok(SetRun(Edit(s, o, Interrupted(s.operations[o], note)), s.operations[o].run, RunInterrupted))
  }

  predicate DetailFree(details: seq<Detail>, d: Detail) {
    forall k :: 0 <= k < |details| ==>
      details[k].rowNo != d.rowNo || details[k].reason != d.reason || details[k].problem != d.problem
  }

  predicate DetailTextFits(w: World, scenario: Scenario, d: Detail) {
    d.rowNo <= MAX_COUNT && |d.reason| <= 128 && |d.problem| <= 128
    && ReasonFits(w.reasons, scenario.marketplace, d.reason)
  }

  predicate AddsRow(c: Command) { c.AttachInput? || c.AttachParameter? || c.AddDetail? || c.AddOutput? }

  /** The rows' guard looks at the caller's operation object, not at the stored operation. */
  predicate SeenOpen(s: State, o: nat, seen: Status) {
    o in s.operations && !TerminalStatus(s.operations[o].kind, seen)
  }

  predicate ListingFits(w: World, scenario: Scenario, listing: Option<nat>) {
    listing.Some? ==>
      listing.value in w.listings && w.listings[listing.value] == ListingScope(scenario.store, scenario.marketplace)
  }

  function Adding(s: State, c: Command): Result<State>
    requires AddsRow(c)
  {
    var o := c.operation;
    if !SeenOpen(s, o, c.seen) then Raised
    else
      var op := s.operations[o];
      match c
      case AttachInput(_, _, i) =>
        if InputFits(s.world.versions, op.scenario, i) && PlaceFree(op.inputs, i)
          then Ok(Edit(s, o, op.(inputs := op.inputs + [i])))
        else Raised
      case AttachParameter(_, _, p) =>
        if ParamFits(p) && CodeFree(op.params, p) then Ok(Edit(s, o, op.(params := op.params + [p]))) else Raised
      case AddDetail(_, _, d) =>
        if DetailFree(op.details, d) && ListingFits(s.world, op.scenario, d.listing)
           && DetailTextFits(s.world, op.scenario, d) then
          Ok(Edit(s, o, op.(details := op.details + [d])))
        else Raised
      case AddOutput(_, _, v) =>
        if OutputFits(s, op.scenario, Some(v)) then Ok(Edit(s, o, op.(outputs := op.outputs + {v}))) else Raised
  }

  function Confirming(s: State, check: nat, process: nat, seen: Status): Result<State> {
    if check in s.operations && s.operations[check].kind.Check? && SeenOpen(s, process, seen)
       && s.operations[process].kind.Process? && s.operations[process].basis == Some(check)
    then Ok(s.(confirmations := s.confirmations + [(check, process)])) else Raised
  }

  /** The one change a terminal operation's detail row admits: setting its missing listing. */
  function Enriching(s: State, o: nat, i: nat, listing: nat): Result<State> {
    if o !in s.operations || i >= |s.operations[o].details| || s.operations[o].details[i].listing.Some?
       || !ListingFits(s.world, s.operations[o].scenario, Some(listing)) then Raised
    else
      var op := s.operations[o];
      Ok(Edit(s, o, op.(details := op.details[i := op.details[i].(listing := Some(listing))])))
  }

  /** Review and confirmation write a calculation's summary around the guard on terminal operations. */
  function SavingSummary(s: State, o: nat, summary: nat): Result<State> {
    if o !in s.operations || !s.operations[o].step.OzonElasticCalculation? then Raised
    else Ok(Edit(s, o, s.operations[o].(summary := summary)))
  }

  function Step(s: State, c: Command): Result<State> {
    match c
    case CreateRun(scenario) => CreatingRun(s, scenario)
    case CreateCheck(q, into, allowed) => if allowed then CreatingCheck(s, q, into) else Raised
    case CreateProcess(q, basis, into, confirmed, allowed) =>
      if allowed then CreatingProcess(s, q, basis, into, confirmed) else Raised
    case CreateApi(scenario, step, logic, into, allowed) =>
      if allowed then CreatingApi(s, scenario, step, logic, into) else Raised
    case Start(o) => Starting(s, o)
    case CompleteCheck(o, r) => CompletingCheck(s, o, r)
    case CompleteProcess(o, r) => CompletingProcess(s, o, r)
    case CompleteApi(o, status, r) => CompletingApi(s, o, status, r)
    case Interrupt(o, note) => Interrupting(s, o, note)
    case Confirm(check, process, seen) => Confirming(s, check, process, seen)
    case EnrichDetail(o, i, listing) => Enriching(s, o, i, listing)
    case SaveSummary(o, summary) => SavingSummary(s, o, summary)
    case _ => Adding(s, c)
  }

  /** A step that raises is rolled back. */
  function Next(s: State, c: Command): State { var r := Step(s, c); if r.Ok? then r.value else s }

  function Run(s: State, commands: seq<Command>): State {
    if commands == [] then s else Next(Run(s, commands[..|commands| - 1]), commands[|commands| - 1])
  }

  /** Nothing has run yet. */
  function Initial(w: World): State { State(w, map[], map[], [], 1, 1) }

  // ---------- what no step undoes ----------

  /** Rows kept as they are, except that a missing listing may have been set. */
  ghost predicate DetailsKept(before: seq<Detail>, after: seq<Detail>) {
    && |after| == |before|
    && forall i :: 0 <= i < |before| ==>
         after[i] == before[i].(listing := after[i].listing)
           && (before[i].listing.Some? ==> after[i].listing == before[i].listing)
  }

  /** Rows are only ever added. */
  ghost predicate RowsGrown(before: Operation, after: Operation) {
    && before.inputs <= after.inputs && before.params <= after.params && before.outputs <= after.outputs
    && |before.details| <= |after.details| && DetailsKept(before.details, after.details[..|before.details|])
  }

  /** The operation's own row is kept, except for an Elastic calculation's summary. */
  ghost predicate Settled(before: Operation, after: Operation) {
    && after == before.(summary := after.summary, inputs := after.inputs, params := after.params,
                        details := after.details,
                        outputs := after.outputs)
    && (!before.step.OzonElasticCalculation? ==> after.summary == before.summary)
  }

  /** What no step changes about an operation, terminal or not. */
  ghost predicate SameIdentity(before: Operation, after: Operation) {
    && after.scenario == before.scenario && after.kind == before.kind && after.step == before.step
    && after.run == before.run && after.logic == before.logic && after.basis == before.basis
  }

  ghost predicate Evolved(before: Operation, after: Operation) {
    SameIdentity(before, after) && RowsGrown(before, after) && (Terminal(before) ==> Settled(before, after))
  }

  ghost predicate Grown(s: State, t: State) {
    && t.world == s.world && s.confirmations <= t.confirmations
    && (forall r :: r in s.runs ==> r in t.runs && t.runs[r].scenario == s.runs[r].scenario)
    && forall o :: o in s.operations ==> o in t.operations && Evolved(s.operations[o], t.operations[o])
  }

  lemma DetailsKeptSelf(details: seq<Detail>)
    ensures DetailsKept(details, details) && details[..|details|] == details
  {
  }

  lemma DetailsKeptTransitive(a: seq<Detail>, b: seq<Detail>, c: seq<Detail>)
    requires |a| <= |b| <= |c| && DetailsKept(a, b[..|a|]) && DetailsKept(b, c[..|b|])
    ensures DetailsKept(a, c[..|a|])
  {
    forall i | 0 <= i < |a|
      ensures c[i] == a[i].(listing := c[i].listing) && (a[i].listing.Some? ==> c[i].listing == a[i].listing)
    {
      assert b[..|a|][i] == b[i] && c[..|b|][i] == c[i];
    }
  }

  lemma EvolvedSelf(op: Operation)
    ensures Evolved(op, op)
  {
    DetailsKeptSelf(op.details);
  }

  lemma EvolvedTransitive(a: Operation, b: Operation, c: Operation)
    requires Evolved(a, b) && Evolved(b, c)
    ensures Evolved(a, c)
  {
    DetailsKeptTransitive(a.details, b.details, c.details);
  }

  lemma GrownTransitive(s: State, t: State, u: State)
    requires Grown(s, t) && Grown(t, u)
    ensures Grown(s, u)
  {
    forall o | o in s.operations ensures o in u.operations && Evolved(s.operations[o], u.operations[o]) {
      EvolvedTransitive(s.operations[o], t.operations[o], u.operations[o]);
    }
    assert forall r :: r in s.runs ==> t.runs[r].scenario == s.runs[r].scenario;
  }

  lemma SameRowsEvolve(before: Operation, after: Operation)
    requires SameIdentity(before, after) && !Terminal(before) && before.outputs <= after.outputs
    requires after.inputs == before.inputs && after.params == before.params && after.details == before.details
    ensures Evolved(before, after)
  {
    DetailsKeptSelf(before.details);
  }

  lemma GrownByEdit(s: State, o: nat, op: Operation)
    requires o in s.operations && Evolved(s.operations[o], op)
    ensures Grown(s, Edit(s, o, op))
  {
    forall k | k in s.operations ensures Evolved(s.operations[k], Edit(s, o, op).operations[k]) {
      EvolvedSelf(s.operations[k]);
    }
  }

  lemma GrownByRun(s: State, r: nat, status: RunStatus)
    ensures Grown(s, SetRun(s, r, status))
  {
    forall k | k in s.operations ensures Evolved(s.operations[k], s.operations[k]) { EvolvedSelf(s.operations[k]); }
  }

  lemma GrownByEditAndRun(s: State, o: nat, op: Operation, r: nat, status: RunStatus)
    requires o in s.operations && Evolved(s.operations[o], op)
    ensures Grown(s, SetRun(Edit(s, o, op), r, status)) && Grown(s, Edit(s, o, op))
            && Grown(s, Closed(Edit(s, o, op), r))
  {
    var t := Edit(s, o, op);
    GrownByEdit(s, o, op);
    GrownByRun(t, r, status);
    GrownByRun(t, r, RunCompleted);
    GrownTransitive(s, t, SetRun(t, r, status));
    GrownTransitive(s, t, SetRun(t, r, RunCompleted));
  }

  lemma GrownByPut(s: State, op: Operation)
    requires s.nextOperation !in s.operations
    ensures Grown(s, Put(s, op))
  {
    forall k | k in s.operations ensures Evolved(s.operations[k], Put(s, op).operations[k]) {
      EvolvedSelf(s.operations[k]);
    }
  }

  lemma GrownByPutRun(s: State, scenario: Scenario)
    requires s.nextRun !in s.runs
    ensures Grown(s, PutRun(s, scenario))
  {
    forall k | k in s.operations ensures Evolved(s.operations[k], s.operations[k]) { EvolvedSelf(s.operations[k]); }
  }

  /** The next ids are free. */
  ghost predicate Numbered(s: State) {
    && (forall o :: o in s.operations ==> o < s.nextOperation)
    && forall r :: r in s.runs ==> r < s.nextRun
  }

  lemma InsertingGrows(s: State, op: Operation)
    requires Numbered(s) && Inserting(s, op).Ok?
    ensures Grown(s, Inserting(s, op).value) && Numbered(Inserting(s, op).value)
  {
    GrownByPut(s, op);
  }

  lemma CreatingGrows(s: State, scenario: Scenario, into: Option<nat>, op: Operation)
    requires Numbered(s) && Inserting(WithRun(s, scenario, into).0, op).Ok?
    ensures Grown(s, Inserting(WithRun(s, scenario, into).0, op).value)
            && Numbered(Inserting(WithRun(s, scenario, into).0, op).value)
  {
    var t := WithRun(s, scenario, into).0;
    if into.None? {
      GrownByPutRun(s, scenario);
    } else {
      GrownByRunless(s);
    }
    InsertingGrows(t, op);
    GrownTransitive(s, t, Inserting(t, op).value);
  }

  lemma GrownByRunless(s: State)
    ensures Grown(s, s)
  {
    forall k | k in s.operations ensures Evolved(s.operations[k], s.operations[k]) { EvolvedSelf(s.operations[k]); }
  }

  lemma CreatingProcessGrows(s: State, q: Request, basis: nat, into: Option<nat>, confirmed: bool)
    requires Numbered(s) && CreatingProcess(s, q, basis, into, confirmed).Ok?
    ensures Grown(s, CreatingProcess(s, q, basis, into, confirmed).value)
    ensures Numbered(CreatingProcess(s, q, basis, into, confirmed).value)
  {
    InsertingGrows(s, NewProcess(s, q, basis, into));
  }

  lemma AddingGrows(s: State, c: Command)
    requires AddsRow(c) && Adding(s, c).Ok?
    ensures Grown(s, Adding(s, c).value)
  {
    var o := c.operation;
    var after := Adding(s, c).value.operations[o];
    DetailsKeptSelf(s.operations[o].details);
    assert after.details[..|s.operations[o].details|] == s.operations[o].details;
    GrownByEdit(s, o, after);
  }

  lemma EnrichingGrows(s: State, o: nat, i: nat, listing: nat)
    requires Enriching(s, o, i, listing).Ok?
    ensures Grown(s, Enriching(s, o, i, listing).value)
  {
    var after := Enriching(s, o, i, listing).value.operations[o];
    assert after.details[..|s.operations[o].details|] == after.details;
    GrownByEdit(s, o, Enriching(s, o, i, listing).value.operations[o]);
  }

  /** The operation a status step writes. */
  lemma ClosingGrows(s: State, o: nat, op: Operation)
    requires Open(s, o) && SameIdentity(s.operations[o], op) && s.operations[o].outputs <= op.outputs
    requires op.inputs == s.operations[o].inputs && op.params == s.operations[o].params
             && op.details == s.operations[o].details
    ensures Grown(s, Closed(Edit(s, o, op), s.operations[o].run))
    ensures Grown(s, SetRun(Edit(s, o, op), s.operations[o].run, RunRunning))
    ensures Grown(s, SetRun(Edit(s, o, op), s.operations[o].run, RunInterrupted))
  {
    SameRowsEvolve(s.operations[o], op);
    GrownByEditAndRun(s, o, op, s.operations[o].run, RunRunning);
    GrownByEditAndRun(s, o, op, s.operations[o].run, RunInterrupted);
  }

  lemma CompletionGrows(s: State, c: Command)
    requires (c.CompleteCheck? || c.CompleteProcess? || c.CompleteApi?) && Step(s, c).Ok?
    ensures Grown(s, Step(s, c).value)
  {
    var o := c.operation;
    var op := s.operations[o];
    match c
    case CompleteCheck(_, r) => ClosingGrows(s, o, Counted(op, CheckOutcome(r), r));
    case CompleteProcess(_, r) =>
      ClosingGrows(s, o, Counted(op, ProcessOutcome(r), r).(outputs := op.outputs + OutputSet(r.output),
                                                            produced := r.output));
    case CompleteApi(_, status, r) =>
      ClosingGrows(s, o, Counted(op, status, r).(outputs := op.outputs + OutputSet(r.output)));
  }

  lemma ConfirmingGrows(s: State, c: Command)
    requires c.Confirm? && Step(s, c).Ok?
    ensures Grown(s, Step(s, c).value)
  {
    GrownByRunless(s);
  }

  lemma SavingGrows(s: State, o: nat, summary: nat)
    requires SavingSummary(s, o, summary).Ok?
    ensures Grown(s, SavingSummary(s, o, summary).value)
  {
    DetailsKeptSelf(s.operations[o].details);
    GrownByEdit(s, o, s.operations[o].(summary := summary));
  }

  /** Identities never change, rows are only added, and the own row of a terminal operation is kept. */
  lemma StepGrows(s: State, c: Command)
    requires Numbered(s) && Step(s, c).Ok?
    ensures Grown(s, Step(s, c).value)
  {
    match c
    case CreateRun(scenario) => GrownByPutRun(s, scenario);
    case CreateCheck(q, into, _) =>
      var r := WithRun(s, q.scenario, into).1;
      CreatingGrows(s, q.scenario, into, NewOperation(q.scenario, Check, NoStep, r, q.logic, None, q.inputs, q.params));
    case CreateProcess(q, basis, into, confirmed, _) => CreatingProcessGrows(s, q, basis, into, confirmed);
    case CreateApi(scenario, step, logic, into, _) =>
      var api := scenario.(mode := Api);
      CreatingGrows(s, api, into, NewOperation(api, NotApplicable, step, WithRun(s, api, into).1, logic, None, [], []));
    case Start(o) => ClosingGrows(s, o, s.operations[o].(status := Running));
    case Interrupt(o, note) => ClosingGrows(s, o, Interrupted(s.operations[o], note));
    case Confirm(_, _, _) => ConfirmingGrows(s, c);
    case EnrichDetail(o, i, listing) => EnrichingGrows(s, o, i, listing);
    case SaveSummary(o, summary) => SavingGrows(s, o, summary);
    case CompleteCheck(_, _) => CompletionGrows(s, c);
    case CompleteProcess(_, _) => CompletionGrows(s, c);
    case CompleteApi(_, _, _) => CompletionGrows(s, c);
    case _ => AddingGrows(s, c);
  }

  // ---------- terminal operations with all their rows ----------

  /** The operation and all its rows are kept, but for missing listings of its details and an Elastic summary. */
  ghost predicate Frozen(before: Operation, after: Operation) {
    && after == before.(summary := after.summary, details := after.details)
       && DetailsKept(before.details, after.details)
    && (!before.step.OzonElasticCalculation? ==> after.summary == before.summary)
  }

  ghost predicate ConfirmationsFrozen(s: State, t: State) {
    && s.confirmations <= t.confirmations
    && forall i :: |s.confirmations| <= i < |t.confirmations| ==>
         !(t.confirmations[i].1 in s.operations && Terminal(s.operations[t.confirmations[i].1]))
  }

  /** Every terminal operation is frozen, and no terminal process gets another confirmation. */
  ghost predicate AllFrozen(s: State, t: State) {
    && ConfirmationsFrozen(s, t)
    && forall o :: o in s.operations && Terminal(s.operations[o]) ==>
         o in t.operations && Frozen(s.operations[o], t.operations[o])
  }

  /** A row saved for an operation that is terminal by now, through an object that does not show it. */
  predicate Late(s: State, c: Command) {
    (AddsRow(c) || c.Confirm?) && c.operation in s.operations && Terminal(s.operations[c.operation])
  }

  lemma FrozenSelf(op: Operation)
    ensures Frozen(op, op)
  {
  }

  lemma FrozenTransitive(a: Operation, b: Operation, c: Operation)
    requires Frozen(a, b) && Frozen(b, c)
    ensures Frozen(a, c)
  {
    forall i | 0 <= i < |a.details|
      ensures c.details[i] == a.details[i].(listing := c.details[i].listing)
              && (a.details[i].listing.Some? ==> c.details[i].listing == a.details[i].listing)
    {
      assert b.details[i] == a.details[i].(listing := b.details[i].listing);
    }
  }

  lemma AllFrozenTransitive(s: State, t: State, u: State)
    requires AllFrozen(s, t) && AllFrozen(t, u)
    ensures AllFrozen(s, u)
  {
    forall o | o in s.operations && Terminal(s.operations[o])
      ensures o in u.operations && Frozen(s.operations[o], u.operations[o]) {
      FrozenTransitive(s.operations[o], t.operations[o], u.operations[o]);
    }
    forall i | |s.confirmations| <= i < |u.confirmations|
      ensures !(u.confirmations[i].1 in s.operations && Terminal(s.operations[u.confirmations[i].1]))
    {
      if i < |t.confirmations| { assert t.confirmations[i] == u.confirmations[i]; }
    }
  }

  lemma LateAddingThaws(s: State, c: Command)
    requires AddsRow(c) && Late(s, c) && Adding(s, c).Ok?
    ensures !AllFrozen(s, Adding(s, c).value)
  {
    var o := c.operation;
    var before, after := s.operations[o], Adding(s, c).value.operations[o];
    assert |after.inputs| + |after.params| + |after.details| > |before.inputs| + |before.params| + |before.details|
           || (c.AddOutput? && c.version in after.outputs && c.version !in before.outputs);
    assert !Frozen(before, after);
  }

  lemma LateConfirmationThaws(s: State, c: Command)
    requires c.Confirm? && Late(s, c) && Step(s, c).Ok?
    ensures !AllFrozen(s, Step(s, c).value)
  {
    var t := Step(s, c).value;
    assert t.confirmations[|s.confirmations|].1 == c.operation;
  }

  /** The operation a step edits, if it edits one. */
  predicate Edits(c: Command, o: nat) {
    match c
    case CreateRun(_) | CreateCheck(_, _, _) | CreateProcess(_, _, _, _, _) | CreateApi(_, _, _, _, _)
      | Confirm(_, _, _) => false
    case _ => c.operation == o
  }

  lemma OnlyEdited(s: State, c: Command, o: nat)
    requires Numbered(s) && Step(s, c).Ok? && o in s.operations && !Edits(c, o)
    ensures o in Step(s, c).value.operations && Step(s, c).value.operations[o] == s.operations[o]
  {
  }

  lemma EditedFrozen(s: State, c: Command)
    requires Step(s, c).Ok? && !c.CreateRun? && !c.CreateCheck? && !c.CreateProcess? && !c.CreateApi? && !c.Confirm?
             && !AddsRow(c)
    requires c.operation in s.operations && Terminal(s.operations[c.operation])
    ensures c.operation in Step(s, c).value.operations
            && Frozen(s.operations[c.operation], Step(s, c).value.operations[c.operation])
  {
  }

  lemma ConfirmationsOf(s: State, c: Command)
    requires Numbered(s) && Step(s, c).Ok? && !(c.Confirm? && Late(s, c))
    ensures ConfirmationsFrozen(s, Step(s, c).value)
  {
  }

  /** A step keeps every terminal operation frozen exactly when it does not save a late row. */
  lemma StepFreezesIff(s: State, c: Command)
    requires Numbered(s) && Step(s, c).Ok?
    ensures AllFrozen(s, Step(s, c).value) <==> !Late(s, c)
  {
    if Late(s, c) {
      if AddsRow(c) { LateAddingThaws(s, c); } else { LateConfirmationThaws(s, c); }
    } else {
      var t := Step(s, c).value;
      ConfirmationsOf(s, c);
      forall o | o in s.operations && Terminal(s.operations[o])
        ensures o in t.operations && Frozen(s.operations[o], t.operations[o]) {
        if Edits(c, o) {
          EditedFrozen(s, c);
        } else {
          OnlyEdited(s, c, o);
        }
      }
    }
  }
}
