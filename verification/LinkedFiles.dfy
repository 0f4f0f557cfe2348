/** Operations over a live file table: what an operation links is kept by every file service. */
module LinkedFiles {
  import opened Common
  import opened OperationMetadata
  import opened OperationTypes
  import opened OperationSteps
  import opened OperationInvariants
  import Files

  datatype Joint = Joint(operations: State, files: Files.State)

  /** A step of an operation service, or of a file service; links come from operations alone. */
  datatype JointCommand = Operate(step: Command) | Store(file: Files.Command)

  function ScopeOf(f: Files.FileObject): FileScope { FileScope(f.store, Files.MarketplaceOf(f.scenario), f.module_) }

  /** The file versions as operations see them. */
  function View(files: Files.State): map<nat, FileScope> {
    map v | v in files.versions && files.versions[v].file in files.files :: ScopeOf(files.files[files.versions[v].file])
  }

  /** The operations with the file table as it is now. */
  function Looking(j: Joint): State { j.operations.(world := j.operations.world.(versions := View(j.files))) }

  function VersionsOf(inputs: seq<InputSpec>): set<nat> { set i | 0 <= i < |inputs| :: inputs[i].version }

  /** The file versions an accepted step links as inputs or outputs. */
  function Links(c: Command): set<nat> {
    match c
    case CreateCheck(q, _, _) => VersionsOf(q.inputs)
    case CreateProcess(q, _, _, _, _) => VersionsOf(q.inputs)
    case CompleteProcess(_, r) => OutputSet(r.output)
    case CompleteApi(_, _, r) => OutputSet(r.output)
    case AttachInput(_, _, i) => {i.version}
    case AddOutput(_, _, v) => {v}
    case _ => {}
  }

  function LinkEach(files: Files.State, ids: seq<nat>): Files.State {
    if ids == [] then files else Files.Linking(LinkEach(files, ids[..|ids| - 1]), ids[|ids| - 1])
  }

  function JointNext(j: Joint, c: JointCommand): Joint {
    match c
    case Operate(step) =>
      var r := Step(Looking(j), step);
      if r.Raised? then j else Joint(r.value, LinkEach(j.files, Ordered(Links(step))))
    case Store(file) => if file.LinkInput? then j else j.(files := Files.Next(j.files, file))
  }

  function JointRun(w: World, commands: seq<JointCommand>): Joint {
    if commands == [] then Joint(Initial(w), Files.EMPTY)
    else JointNext(JointRun(w, commands[..|commands| - 1]), commands[|commands| - 1])
  }

  // ---------- what an operation holds ----------

  ghost predicate Holds(op: Operation, v: nat) { v in VersionsOf(op.inputs) || Uses(op, v) }

  /** A version an operation holds is linked, and its file is of the operation's store, marketplace and module. */
  ghost predicate Kept(op: Operation, files: Files.State, v: nat) {
    v in files.links && v in View(files)
    && View(files)[v] == FileScope(op.scenario.store, op.scenario.marketplace, op.scenario.module_)
  }

  ghost predicate AllKept(operations: map<nat, Operation>, files: Files.State) {
    forall o, v :: o in operations && Holds(operations[o], v) ==> Kept(operations[o], files, v)
  }

  ghost predicate Sound(j: Joint) {
    Inv(j.operations) && Files.Inv(j.files) && AllKept(j.operations.operations, j.files)
  }

  lemma LookingKeepsInv(j: Joint)
    requires Inv(j.operations)
    ensures Inv(Looking(j))
  {
  }

  /** What the step itself checked of a version it links. */
  ghost predicate JustLinked(c: Command, versions: map<nat, FileScope>, scenario: Scenario, v: nat) {
    v in Links(c) && v in versions
    && versions[v] == FileScope(scenario.store, scenario.marketplace, scenario.module_)
  }

  lemma FittingInputs(c: Command, versions: map<nat, FileScope>, scenario: Scenario, inputs: seq<InputSpec>, v: nat)
    requires InputsFit(versions, scenario, inputs) && VersionsOf(inputs) <= Links(c) && v in VersionsOf(inputs)
    ensures JustLinked(c, versions, scenario, v)
  {
    var i :| 0 <= i < |inputs| && inputs[i].version == v;
  }

  lemma NewbornInputs(s: State, c: Command, o: nat, v: nat)
    requires Numbered(s) && Step(s, c).Ok? && o in Step(s, c).value.operations && o !in s.operations
    requires v in VersionsOf(Step(s, c).value.operations[o].inputs)
    ensures JustLinked(c, s.world.versions, Step(s, c).value.operations[o].scenario, v)
  {
    var op := Step(s, c).value.operations[o];
    StepNewborns(s, c, o);
    match c
    case CreateCheck(q, _, _) => FittingInputs(c, s.world.versions, op.scenario, op.inputs, v);
    case CreateProcess(q, _, _, _, _) => FittingInputs(c, s.world.versions, op.scenario, op.inputs, v);
    case _ =>
  }

  lemma AppendedInput(inputs: seq<InputSpec>, i: InputSpec)
    ensures VersionsOf(inputs + [i]) == VersionsOf(inputs) + {i.version}
  {
    var all := inputs + [i];
    assert forall k :: 0 <= k < |inputs| ==> all[k] == inputs[k];
    assert all[|inputs|] == i;
  }

  lemma StepInputs(s: State, c: Command, o: nat, v: nat)
    requires Numbered(s) && Step(s, c).Ok? && o in Step(s, c).value.operations
    requires v in VersionsOf(Step(s, c).value.operations[o].inputs)
    ensures (o in s.operations && v in VersionsOf(s.operations[o].inputs))
            || JustLinked(c, s.world.versions, Step(s, c).value.operations[o].scenario, v)
  {
    if o !in s.operations {
      NewbornInputs(s, c, o, v);
    } else if c.AttachInput? && c.operation == o {
      AppendedInput(s.operations[o].inputs, c.input);
    } else if c.AttachParameter? && c.operation == o {
    } else {
      StepKeepsRows(s, c, o);
    }
  }

  lemma StepOutputs(s: State, c: Command, o: nat, v: nat)
    requires Numbered(s) && Step(s, c).Ok? && o in Step(s, c).value.operations
    requires Uses(Step(s, c).value.operations[o], v)
    ensures o in s.operations
    ensures Uses(s.operations[o], v) || JustLinked(c, s.world.versions, Step(s, c).value.operations[o].scenario, v)
  {
    StepUses(s, c, o, v);
    if !Uses(s.operations[o], v) { NewOutput(s, c, v); }
  }

  lemma NewOutput(s: State, c: Command, v: nat)
    requires (c.CompleteProcess? || c.CompleteApi? || c.AddOutput?) && Step(s, c).Ok?
    requires c.operation in Step(s, c).value.operations && Uses(Step(s, c).value.operations[c.operation], v)
    requires c.operation in s.operations && !Uses(s.operations[c.operation], v)
    ensures JustLinked(c, s.world.versions, Step(s, c).value.operations[c.operation].scenario, v)
  {
  }

  /** A step lets an operation hold no version but those it held before and those it has just linked. */
  lemma StepHolds(s: State, c: Command, o: nat, v: nat)
    requires Numbered(s) && Step(s, c).Ok? && o in Step(s, c).value.operations
    requires Holds(Step(s, c).value.operations[o], v)
    ensures (o in s.operations && Holds(s.operations[o], v))
            || JustLinked(c, s.world.versions, Step(s, c).value.operations[o].scenario, v)
  {
    if v in VersionsOf(Step(s, c).value.operations[o].inputs) {
      StepInputs(s, c, o, v);
    } else {
      StepOutputs(s, c, o, v);
    }
  }

  // ---------- the file table underneath ----------

  /** Links grow, and nothing that operations see changes. */
  ghost predicate LinkedMore(s: Files.State, t: Files.State) {
    View(t) == View(s) && s.links <= t.links && t.versions.Keys == s.versions.Keys
  }

  lemma LinkingMore(s: Files.State, v: nat)
    ensures LinkedMore(s, Files.Linking(s, v)) && (v in s.versions ==> v in Files.Linking(s, v).links)
  {
  }

  lemma {:induction false} LinkEachKeeps(files: Files.State, ids: seq<nat>)
    requires Files.Inv(files)
    ensures Files.Inv(LinkEach(files, ids)) && LinkedMore(files, LinkEach(files, ids))
  {
    if ids != [] {
      var most := ids[..|ids| - 1];
      LinkEachKeeps(files, most);
      Files.LinkKeepsInv(LinkEach(files, most), ids[|ids| - 1]);
      LinkingMore(LinkEach(files, most), ids[|ids| - 1]);
    }
  }

  lemma {:induction false} LinkEachLinks(files: Files.State, ids: seq<nat>, v: nat)
    requires Files.Inv(files) && v in ids && v in files.versions
    ensures v in LinkEach(files, ids).links
  {
    var most, last := ids[..|ids| - 1], ids[|ids| - 1];
    LinkEachKeeps(files, most);
    LinkingMore(LinkEach(files, most), last);
    if v != last { LinkEachLinks(files, most, v); }
  }

  /** The files of versions that stay stay as they are, but for being archived. */
  ghost predicate SameScopes(s: Files.State, t: Files.State) {
    && (forall v :: v in s.versions && v in t.versions ==> t.versions[v].file == s.versions[v].file)
    && forall f :: f in s.files && f in t.files ==> ScopeOf(t.files[f]) == ScopeOf(s.files[f])
  }

  lemma CreateKeepsScopes(s: Files.State, c: Files.Command)
    requires Files.Inv(s) && c.Create?
    ensures SameScopes(s, Files.Creating(s, c))
  {
  }

  lemma DeletingKeepsScopes(s: Files.State, file: nat, ids: set<nat>, now: nat)
    requires ids <= s.versions.Keys
    ensures SameScopes(s, Files.Deleting(s, file, ids, now))
  {
  }

  lemma CleaningKeepsScopes(s: Files.State, ids: set<nat>)
    ensures SameScopes(s, Files.Cleaning(s, ids))
  {
  }

  lemma FileStepKeepsScopes(s: Files.State, c: Files.Command)
    requires Files.Inv(s)
    ensures SameScopes(s, Files.Next(s, c))
  {
    match c
    case Create(_, _, _, _, _, _, _) => CreateKeepsScopes(s, c);
    case DeleteUpload(file, now) => DeletingKeepsScopes(s, file, Files.VersionsOf(s.versions, file), now);
    case DeleteVersion(v, now) =>
      if v in s.versions { DeletingKeepsScopes(s, s.versions[v].file, {v}, now); }
    case Cleanup(now, limit) => CleaningKeepsScopes(s, Files.Members(Files.Queue(s.versions, now, limit)));
    case _ =>
  }

  lemma FileStepKeeps(op: Operation, s: Files.State, c: Files.Command, v: nat)
    requires Files.Inv(s) && Kept(op, s, v)
    ensures Kept(op, Files.Next(s, c), v)
  {
    Files.NextKeepsInv(s, c);
    Files.LinkedStep(s, c, v);
    FileStepKeepsScopes(s, c);
  }

  // ---------- joint runs ----------

  lemma LinkedIsKept(op: Operation, c: Command, files: Files.State, v: nat)
    requires Files.Inv(files) && JustLinked(c, View(files), op.scenario, v)
    ensures Kept(op, LinkEach(files, Ordered(Links(c))), v)
  {
    LinkEachKeeps(files, Ordered(Links(c)));
    LinkEachLinks(files, Ordered(Links(c)), v);
  }

  lemma HeldIsKept(before: Operation, after: Operation, files: Files.State, t: Files.State, v: nat)
    requires Kept(before, files, v) && after.scenario == before.scenario && LinkedMore(files, t)
    ensures Kept(after, t, v)
  {
  }

  lemma StepKeepsHeld(j: Joint, c: Command, o: nat, v: nat)
    requires Sound(j) && Step(Looking(j), c).Ok? && o in Step(Looking(j), c).value.operations
    requires Holds(Step(Looking(j), c).value.operations[o], v)
    ensures Kept(Step(Looking(j), c).value.operations[o], LinkEach(j.files, Ordered(Links(c))), v)
  {
    var s, files := Looking(j), LinkEach(j.files, Ordered(Links(c)));
    var op := Step(s, c).value.operations[o];
    LookingKeepsInv(j);
    StepHolds(s, c, o, v);
    LinkEachKeeps(j.files, Ordered(Links(c)));
    if JustLinked(c, View(j.files), op.scenario, v) {
      LinkedIsKept(op, c, j.files, v);
    } else {
      StepGrows(s, c);
      assert Evolved(s.operations[o], op);
      HeldIsKept(s.operations[o], op, j.files, files, v);
    }
  }

  lemma OperatedIsSound(j: Joint, c: Command)
    requires Sound(j) && Step(Looking(j), c).Ok?
    ensures Sound(Joint(Step(Looking(j), c).value, LinkEach(j.files, Ordered(Links(c)))))
  {
    LookingKeepsInv(j);
    NextKeepsInv(Looking(j), c);
    LinkEachKeeps(j.files, Ordered(Links(c)));
    AllHeldKept(j, c);
  }

  lemma OperateKeepsSound(j: Joint, c: Command)
    requires Sound(j)
    ensures Sound(JointNext(j, Operate(c)))
  {
    if Step(Looking(j), c).Ok? { OperatedIsSound(j, c); }
  }

  lemma AllHeldKept(j: Joint, c: Command)
    requires Sound(j) && Step(Looking(j), c).Ok?
    ensures AllKept(Step(Looking(j), c).value.operations, LinkEach(j.files, Ordered(Links(c))))
  {
    var operations := Step(Looking(j), c).value.operations;
    forall o, v | o in operations && Holds(operations[o], v)
      ensures Kept(operations[o], LinkEach(j.files, Ordered(Links(c))), v)
    {
      StepKeepsHeld(j, c, o, v);
    }
  }

  lemma StoreKeepsSound(j: Joint, c: Files.Command)
    requires Sound(j)
    ensures Sound(JointNext(j, Store(c)))
  {
    if !c.LinkInput? {
      Files.NextKeepsInv(j.files, c);
      forall o, v | o in j.operations.operations && Holds(j.operations.operations[o], v)
        ensures Kept(j.operations.operations[o], Files.Next(j.files, c), v)
      {
        FileStepKeeps(j.operations.operations[o], j.files, c, v);
      }
    }
  }

  lemma {:induction false} JointRunIsSound(w: World, commands: seq<JointCommand>)
    ensures Sound(JointRun(w, commands))
  {
    if commands != [] {
      var j, c := JointRun(w, commands[..|commands| - 1]), commands[|commands| - 1];
      JointRunIsSound(w, commands[..|commands| - 1]);
      match c
      case Operate(step) => OperateKeepsSound(j, step);
      case Store(file) => StoreKeepsSound(j, file);
    }
  }

  /** Over every run of operation and file services, each version an operation has as input, output or result is in the
      file table, with a file of the operation's store, marketplace and module, and no deletion of its file does
      anything. */
  lemma HeldVersionsStay(w: World, commands: seq<JointCommand>, o: nat, v: nat)
    requires o in JointRun(w, commands).operations.operations
    requires Holds(JointRun(w, commands).operations.operations[o], v)
    ensures var j := JointRun(w, commands); var files, scenario := j.files, j.operations.operations[o].scenario;
      && v in files.versions && files.versions[v].file in files.files
      && ScopeOf(files.files[files.versions[v].file])
         == FileScope(scenario.store, scenario.marketplace, scenario.module_)
      && forall now, u :: u in files.versions && files.versions[u].file == files.versions[v].file ==>
           Files.Next(files, Files.DeleteVersion(u, now)) == files
           && Files.Next(files, Files.DeleteUpload(files.versions[v].file, now)) == files
  {
    JointRunIsSound(w, commands);
    var files := JointRun(w, commands).files;
    assert Kept(JointRun(w, commands).operations.operations[o], files, v);
    assert Files.Referenced(files.versions[v]);
    HeldFileUndeleted(files, v);
  }

  lemma HeldFileUndeleted(files: Files.State, v: nat)
    requires v in files.versions && Files.Referenced(files.versions[v])
    ensures forall now, u :: u in files.versions && files.versions[u].file == files.versions[v].file ==>
              Files.Next(files, Files.DeleteVersion(u, now)) == files
              && Files.Next(files, Files.DeleteUpload(files.versions[v].file, now)) == files
  {
    assert v in Files.VersionsOf(files.versions, files.versions[v].file);
    assert Files.HasOperationLinks(files, files.versions[v].file);
  }

  // ---------- joint steps in terms of the fields ----------

  /** The versions a step links: those of its inputs, its output, or the one given. */
  lemma LinksIff(c: Command, v: nat)
    ensures v in Links(c) <==>
              || ((c.CreateCheck? || c.CreateProcess?) && exists i :: i in c.request.inputs && i.version == v)
              || ((c.CompleteProcess? || c.CompleteApi?) && c.result.output == Some(v))
              || (c.AttachInput? && c.input.version == v) || (c.AddOutput? && c.version == v)
  {
    if c.CreateCheck? || c.CreateProcess? {
      if i :| i in c.request.inputs && i.version == v {
        var k :| 0 <= k < |c.request.inputs| && c.request.inputs[k] == i;
      }
    }
  }

  /** Operations see the versions of the file table, each with the store, module and marketplace of its file. */
  lemma LookingMeaning(j: Joint, v: nat)
    ensures var s := Looking(j);
      && s.operations == j.operations.operations && s.runs == j.operations.runs
      && s.world.stores == j.operations.world.stores && s.world.listings == j.operations.world.listings
      && (v in s.world.versions <==> v in j.files.versions && j.files.versions[v].file in j.files.files)
      && (v in s.world.versions ==> var f, scope := j.files.files[j.files.versions[v].file], s.world.versions[v];
            && scope.store == f.store && scope.module_ == f.module_
            && scope.marketplace == Files.MarketplaceOf(f.scenario))
  {
  }

  /** Linking versions sets both references of each that exists and of no other, and changes nothing else. */
  ghost predicate Referred(s: Files.State, t: Files.State, ids: set<nat>) {
    && t == s.(links := t.links, versions := t.versions) && t.versions.Keys == s.versions.Keys
    && (forall v :: v in t.links <==> v in s.links || (v in ids && v in s.versions))
    && forall v :: v in s.versions ==>
         t.versions[v] == if v in ids then s.versions[v].(operationRef := true, runRef := true) else s.versions[v]
  }

  lemma {:induction false} LinkEachRefers(files: Files.State, ids: seq<nat>)
    ensures Referred(files, LinkEach(files, ids), set v | v in ids)
  {
    if ids != [] {
      var most, last := ids[..|ids| - 1], ids[|ids| - 1];
      LinkEachRefers(files, most);
      assert ids == most + [last];
      assert forall v :: v in ids <==> v in most || v == last;
    }
  }

  /** A step of an operation acts on the operations as they see the file table, and marks the versions it links as used;
      one that raises does nothing. */
  lemma OperateMeaning(j: Joint, step: Command)
    ensures var r, t := Step(Looking(j), step), JointNext(j, Operate(step));
      && (r.Raised? ==> t == j)
      && (r.Ok? ==> t.operations == r.value && Referred(j.files, t.files, Links(step)))
  {
    LinkEachRefers(j.files, Ordered(Links(step)));
    assert (set v | v in Ordered(Links(step))) == Links(step);
  }

  /** A step of a file service is what it is without operations; only operations make links. */
  lemma StoreMeaning(j: Joint, c: Files.Command)
    ensures JointNext(j, Store(c)).operations == j.operations
    ensures JointNext(j, Store(c)).files == if c.LinkInput? then j.files else Files.Next(j.files, c)
  {
  }

  lemma RunExtends(w: World, commands: seq<JointCommand>, c: JointCommand)
    ensures JointRun(w, commands + [c]) == JointNext(JointRun(w, commands), c)
  {
    assert (commands + [c])[..|commands|] == commands;
  }

  const EXAMPLE_SCENARIO := Scenario(Wb, DiscountsExcel, Excel, 1)

  const EXAMPLE_CHECK := CreateCheck(Request(EXAMPLE_SCENARIO, [InputSpec(1, "input", 1)], [], "v1"), None, true)

  function ExampleStart(): seq<JointCommand> { [Store(Files.FirstUpload(""))] }

  lemma UploadedExample(w: World)
    ensures var j := JointRun(w, ExampleStart());
      && j.operations == Initial(w) && j.files.versions.Keys == {1} && j.files.files.Keys == {1}
      && View(j.files) == map[1 := FileScope(1, Wb, DiscountsExcel)]
      && Files.Next(j.files, Files.DeleteUpload(1, 0)).versions == map[]
  {
    RunExtends(w, [], Store(Files.FirstUpload("")));
    assert [] + ExampleStart() == ExampleStart();
    assert Files.Numbers(Files.EMPTY.versions, 1) == {};
    assert Files.RowFits(Files.EMPTY, Files.FirstUpload(""));
    var s := JointRun(w, ExampleStart()).files;
    assert s == Files.Next(Files.EMPTY, Files.FirstUpload(""));
    assert Files.VersionsOf(s.versions, 1) == {1};
  }

  lemma CheckedExample(s: State)
    requires s.world.versions == map[1 := FileScope(1, Wb, DiscountsExcel)]
    requires 1 in s.world.stores && s.world.stores[1] == Wb && s == Initial(s.world)
    ensures var r := Step(s, EXAMPLE_CHECK);
      r.Ok? && 1 in r.value.operations && r.value.operations[1].inputs == [InputSpec(1, "input", 1)]
  {
  }

  /** A run in which a file is uploaded and made the input of a check, which then holds it: its deletion, possible
      before, does nothing. */
  lemma HeldExample(w: World)
    requires 1 in w.stores && w.stores[1] == Wb
    ensures var before, j := JointRun(w, ExampleStart()), JointRun(w, ExampleStart() + [Operate(EXAMPLE_CHECK)]);
      && 1 in j.operations.operations && Holds(j.operations.operations[1], 1) && 1 in j.files.versions
      && Files.Next(before.files, Files.DeleteUpload(1, 0)).versions == map[]
      && Files.Next(j.files, Files.DeleteUpload(1, 0)) == j.files
  {
    var j := JointRun(w, ExampleStart());
    UploadedExample(w);
    RunExtends(w, ExampleStart(), Operate(EXAMPLE_CHECK));
    CheckedExample(Looking(j));
    OperateMeaning(j, EXAMPLE_CHECK);
    var t := JointRun(w, ExampleStart() + [Operate(EXAMPLE_CHECK)]);
    HeldByInput(t.operations.operations[1], 0);
    HeldVersionsStay(w, ExampleStart() + [Operate(EXAMPLE_CHECK)], 1, 1);
    assert t.files.versions[1].file == 1;
  }

  lemma HeldByInput(op: Operation, k: nat)
    requires k < |op.inputs|
    ensures Holds(op, op.inputs[k].version)
  {
  }
}
