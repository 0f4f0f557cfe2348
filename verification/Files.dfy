/** File versions: metadata rows and the physical storage behind them, uploads, deletion, retention and loss. */
module Files {
  import opened Common
  import opened OperationTypes

  datatype Kind = Input | Output | DetailReport

  datatype PhysicalStatus = Available | RetentionDeleted | Missing

  datatype FileScenario =
    | WbDiscountsExcel | WbApiPriceExport | WbApiPromotionExport | WbApiResultExcel | WbApiDetailReport
    | WbApiUploadReport
    | OzonDiscountsExcel | OzonElasticResultReport | OzonElasticManualUploadExcel | OzonElasticUploadReport

  function MarketplaceOf(scenario: FileScenario): Marketplace {
    match scenario
    case OzonDiscountsExcel => Ozon
    case OzonElasticResultReport => Ozon
    case OzonElasticManualUploadExcel => Ozon
    case OzonElasticUploadReport => Ozon
    case _ => Wb
  }

  datatype FileObject = FileObject(store: nat, scenario: FileScenario, kind: Kind, module_: OperationModule,
                                   active: bool)

  /** The texts an upload brings: its base name, a display name or blank, its content type and the two references. */
  datatype Upload = Upload(name: string, logicalName: string, contentType: string, operationRef: string,
                           runRef: string)

  /** `operationRef` and `runRef` say whether the textual references are nonempty. A path is a fresh token. */
  datatype FileVersion = FileVersion(file: nat, versionNo: nat, path: nat, retentionUntil: nat, status: PhysicalStatus,
                                     operationRef: bool, runRef: bool)

  /** `links` are the versions used as operation inputs. History: `lost` are paths removed behind the system's back,
      `orphans` paths stored for a version whose row was refused or rolled back. */
  datatype State = State(files: map<nat, FileObject>, versions: map<nat, FileVersion>, storage: set<nat>,
                         links: set<nat>, lost: set<nat>, orphans: set<nat>,
                         nextFile: nat, nextVersion: nat, nextPath: nat)

  /** What the caller's version object says of its status and of its file. */
  datatype Seen = Seen(active: bool, status: PhysicalStatus)

  const RETENTION_SECONDS := 3 * 24 * 60 * 60

  const NAME_LENGTH := 255
  const REFERENCE_LENGTH := 64
  const MAX_NUMBER := 2147483647

  datatype Command =
    | Create(into: Option<nat>, store: nat, scenario: FileScenario, kind: Kind, module_: OperationModule,
             upload: Upload, now: nat)
    | LinkInput(version: nat)
    | DeleteUpload(file: nat, now: nat)
    | DeleteVersion(version: nat, now: nat)
    | Cleanup(now: nat, limit: Option<nat>)
    | Download(version: nat, seen: Seen, now: nat)
    | Archive(file: nat)
    | Lose(path: nat)
    | Abandon

  // ---------- steps ----------

  function VersionsOf(versions: map<nat, FileVersion>, file: nat): set<nat> {
    set v | v in versions && versions[v].file == file
  }

  function Numbers(versions: map<nat, FileVersion>, file: nat): set<nat> {
    set v | v in VersionsOf(versions, file) :: versions[v].versionNo
  }

  function Max(s: set<nat>): (m: nat)
    ensures (forall x :: x in s ==> x <= m) && (s != {} ==> m in s)
  {
    if s == {} then 0
    else
      var least, rest := Min(s), s - {Min(s)};
      assert forall x :: x in s ==> x == least || x in rest;
      if rest == {} then least else Max(rest)
  }

  function Paths(versions: map<nat, FileVersion>, ids: set<nat>): set<nat> {
    set v | v in ids && v in versions :: versions[v].path
  }

  predicate Referenced(v: FileVersion) { v.operationRef || v.runRef }

  predicate HasOperationLinks(s: State, file: nat) {
    exists v :: v in VersionsOf(s.versions, file) && Referenced(s.versions[v])
  }

  predicate DeleteAllowed(s: State, file: nat, ids: set<nat>, now: nat)
    requires ids <= s.versions.Keys
  {
    && file in s.files && s.files[file].kind == Input && s.files[file].active
    && !HasOperationLinks(s, file) && ids != {}
    && forall v :: v in ids ==> !Referenced(s.versions[v]) && s.versions[v].status == Available
                                && now < s.versions[v].retentionUntil
  }

  function Deleting(s: State, file: nat, ids: set<nat>, now: nat): State
    requires ids <= s.versions.Keys
  {
    if !DeleteAllowed(s, file, ids, now) then s
    else
      var versions := s.versions - ids;
      s.(storage := s.storage - Paths(s.versions, ids), versions := versions,
         files := if VersionsOf(versions, file) == {} then s.files - {file} else s.files)
  }

  /** What a text column of the database takes: no NUL, and nothing but spaces beyond its length. */
  predicate ColumnTakes(text: string, length: nat) {
    '\0' !in text && forall i :: length <= i < |text| ==> text[i] == ' '
  }

  /** A new file row is validated before it is saved, so its names may not be longer at all. */
  predicate NewFileFits(upload: Upload) {
    && 0 < |upload.name| <= NAME_LENGTH && |upload.logicalName| <= NAME_LENGTH
    && '\0' !in upload.name && '\0' !in upload.logicalName
  }

  /** Nothing is raised before the bytes are stored. */
  predicate Accepts(s: State, c: Command)
    requires c.Create?
  {
    if c.into.None? then NewFileFits(c.upload)
    else
      c.into.value in s.files
      && var f := s.files[c.into.value];
         f.store == c.store && f.scenario == c.scenario && f.kind == c.kind && f.active
  }

  predicate TextsFit(upload: Upload) {
    && ColumnTakes(upload.name, NAME_LENGTH) && ColumnTakes(upload.contentType, NAME_LENGTH)
    && ColumnTakes(upload.operationRef, REFERENCE_LENGTH) && ColumnTakes(upload.runRef, REFERENCE_LENGTH)
  }

  /** The database takes the version row, which is not validated before it is saved. */
  predicate RowFits(s: State, c: Command)
    requires c.Create?
  {
    TextsFit(c.upload) && Max(Numbers(s.versions, FileFor(s, c))) < MAX_NUMBER
  }

  function FileFor(s: State, c: Command): nat
    requires c.Create?
  {
    if c.into.Some? then c.into.value else s.nextFile
  }

  /** The file object is the given one, or a new active one. */
  function Filed(s: State, c: Command): State
    requires c.Create?
  {
    if c.into.Some? then s
    else s.(files := s.files[s.nextFile := FileObject(c.store, c.scenario, c.kind, c.module_, true)],
            nextFile := s.nextFile + 1)
  }

  /** The bytes go to a fresh path; the version number follows the greatest one of the file. */
  function Storing(s: State, file: nat, operationRef: bool, runRef: bool, now: nat): State {
    var version := FileVersion(file, Max(Numbers(s.versions, file)) + 1, s.nextPath, now + RETENTION_SECONDS, Available,
                               operationRef, runRef);
    s.(versions := s.versions[s.nextVersion := version], storage := s.storage + {s.nextPath},
       nextVersion := s.nextVersion + 1, nextPath := s.nextPath + 1)
  }

  /** The bytes are stored, but the row is refused or rolled back with all that was saved beside it. */
  function Orphaning(s: State): State {
    s.(storage := s.storage + {s.nextPath}, orphans := s.orphans + {s.nextPath}, nextPath := s.nextPath + 1)
  }

  function Creating(s: State, c: Command): State
    requires c.Create?
  {
    if !Accepts(s, c) then s
    else if !RowFits(s, c) then Orphaning(s)
    else Storing(Filed(s, c), FileFor(s, c), c.upload.operationRef != "", c.upload.runRef != "", c.now)
  }

  predicate Expired(v: FileVersion, now: nat) { v.status == Available && v.retentionUntil <= now }

  function ExpiredIds(versions: map<nat, FileVersion>, now: nat): set<nat> {
    set v | v in versions && Expired(versions[v], now)
  }

  /** `order_by("retention_until", "id")` */
  predicate Earlier(versions: map<nat, FileVersion>, a: nat, b: nat) {
    if a in versions && b in versions then
      versions[a].retentionUntil < versions[b].retentionUntil
      || (versions[a].retentionUntil == versions[b].retentionUntil && a <= b)
    else a <= b
  }

  function Cut(ids: seq<nat>, limit: Option<nat>): (kept: seq<nat>)
    ensures (limit.None? ==> kept == ids) && forall v :: v in kept ==> v in ids
  {
    if limit.Some? && limit.value < |ids| then ids[..limit.value] else ids
  }

  function ByDate(versions: map<nat, FileVersion>): (nat, nat) -> bool {
    (a: nat, b: nat) => Earlier(versions, a, b)
  }

  /** The versions a cleanup looks at: the expired ones, longest expired first, cut at the limit. */
  function Queue(versions: map<nat, FileVersion>, now: nat, limit: Option<nat>): seq<nat> {
    Cut(SortBy(Ordered(ExpiredIds(versions, now)), ByDate(versions)), limit)
  }

  function CleanedVersion(v: FileVersion, storage: set<nat>): FileVersion {
    v.(status := if v.path in storage then RetentionDeleted else Missing)
  }

  function Members(ids: seq<nat>): set<nat> { set v | v in ids }

  function Cleaning(s: State, ids: set<nat>): State {
    s.(versions := map v | v in s.versions ::
                     if v in ids then CleanedVersion(s.versions[v], s.storage) else s.versions[v],
       storage := s.storage - Paths(s.versions, ids))
  }

  /** The checks before storage is asked look at the caller's object; its retention date never changes. */
  predicate Downloadable(s: State, version: nat, seen: Seen, now: nat) {
    version in s.versions && seen.active && seen.status == Available && now < s.versions[version].retentionUntil
  }

  function Downloading(s: State, version: nat, seen: Seen, now: nat): State {
    if Downloadable(s, version, seen, now) && s.versions[version].path !in s.storage then
      s.(versions := s.versions[version := s.versions[version].(status := Missing)])
    else s
  }

  /** What using a version as an operation input does to it. */
  function Linking(s: State, v: nat): State {
    if v !in s.versions then s
    else s.(links := s.links + {v}, versions := s.versions[v := s.versions[v].(operationRef := true, runRef := true)])
  }

  function Archiving(s: State, file: nat): State {
    if file in s.files then s.(files := s.files[file := s.files[file].(active := false)]) else s
  }

  /** A stored file disappears behind the system's back. `Abandon` is a create whose enclosing transaction is rolled
      back later. */
  function Losing(s: State, path: nat): State {
    if path in s.storage then s.(storage := s.storage - {path}, lost := s.lost + {path}) else s
  }

  function Next(s: State, c: Command): State {
    match c
    case Create(_, _, _, _, _, _, _) => Creating(s, c)
    case LinkInput(v) => Linking(s, v)
    case DeleteUpload(file, now) => Deleting(s, file, VersionsOf(s.versions, file), now)
    case DeleteVersion(v, now) => if v !in s.versions then s else Deleting(s, s.versions[v].file, {v}, now)
    case Cleanup(now, limit) => Cleaning(s, Members(Queue(s.versions, now, limit)))
    case Download(v, seen, now) => Downloading(s, v, seen, now)
    case Archive(file) => Archiving(s, file)
    case Lose(path) => Losing(s, path)
    case Abandon => Orphaning(s)
  }

  function Run(s: State, commands: seq<Command>): State
    decreases |commands|
  {
    if commands == [] then s else Next(Run(s, commands[..|commands| - 1]), commands[|commands| - 1])
  }

  const EMPTY := State(map[], map[], {}, {}, {}, {}, 1, 1, 1)

  // ---------- what every run keeps ----------

  function AvailablePaths(s: State): set<nat> {
    set v | v in s.versions && s.versions[v].status == Available :: s.versions[v].path
  }

  ghost predicate DistinctPaths(versions: map<nat, FileVersion>) {
    forall v, w :: v in versions && w in versions && v != w ==> versions[v].path != versions[w].path
  }

  ghost predicate DistinctNumbers(versions: map<nat, FileVersion>) {
    forall v, w :: v in versions && w in versions && v != w && versions[v].file == versions[w].file ==>
                     versions[v].versionNo != versions[w].versionNo
  }

  /** Ids, paths and numbers: what a change of status or references leaves alone. */
  ghost predicate Structured(s: State) {
    && (forall f :: f in s.files ==> f < s.nextFile)
    && (forall v :: v in s.versions ==>
          v < s.nextVersion && s.versions[v].file in s.files && s.versions[v].path < s.nextPath)
    && (forall p :: p in s.lost || p in s.orphans ==> p < s.nextPath)
    && (forall v :: v in s.versions ==> s.versions[v].path !in s.orphans)
    && DistinctPaths(s.versions) && DistinctNumbers(s.versions)
  }

  ghost predicate LinksHeld(s: State) { forall v :: v in s.links ==> v in s.versions && Referenced(s.versions[v]) }

  ghost predicate Inv(s: State) {
    Structured(s) && s.storage == AvailablePaths(s) + s.orphans - s.lost && LinksHeld(s)
  }

  lemma StatusKeepsStructure(s: State, v: nat, version: FileVersion)
    requires Structured(s) && v in s.versions && version.file == s.versions[v].file
    requires version.versionNo == s.versions[v].versionNo && version.path == s.versions[v].path
    ensures Structured(s.(versions := s.versions[v := version]))
  {
  }

  lemma NumbersBounded(versions: map<nat, FileVersion>, file: nat)
    ensures forall v :: v in versions && versions[v].file == file ==>
              versions[v].versionNo <= Max(Numbers(versions, file))
  {
    assert forall v :: v in versions && versions[v].file == file ==>
                         v in VersionsOf(versions, file) && versions[v].versionNo in Numbers(versions, file);
  }

  lemma StoringKeepsInv(s: State, file: nat, operationRef: bool, runRef: bool, now: nat)
    requires Inv(s) && file in s.files
    ensures Inv(Storing(s, file, operationRef, runRef, now))
  {
    var t := Storing(s, file, operationRef, runRef, now);
    NumbersBounded(s.versions, file);
    StoredPaths(s, t);
  }

  lemma StoredPaths(s: State, t: State)
    requires s.nextVersion !in s.versions && t.versions.Keys == s.versions.Keys + {s.nextVersion}
    requires forall v :: v in s.versions ==> t.versions[v] == s.versions[v]
    requires t.versions[s.nextVersion].path == s.nextPath && t.versions[s.nextVersion].status == Available
    ensures AvailablePaths(t) == AvailablePaths(s) + {s.nextPath}
  {
    forall p | p in AvailablePaths(s) ensures p in AvailablePaths(t) {
      var v :| v in s.versions && s.versions[v].status == Available && s.versions[v].path == p;
      assert v in t.versions && t.versions[v] == s.versions[v];
    }
    assert s.nextVersion in t.versions;
  }

  lemma OrphanKeepsInv(s: State)
    requires Inv(s)
    ensures Inv(Orphaning(s))
  {
    assert AvailablePaths(Orphaning(s)) == AvailablePaths(s);
    assert forall v :: v in s.versions && s.versions[v].status == Available ==>
             s.versions[v].path in AvailablePaths(s);
  }

  lemma CreateKeepsInv(s: State, c: Command)
    requires Inv(s) && c.Create?
    ensures Inv(Creating(s, c))
  {
    if Accepts(s, c) && !RowFits(s, c) {
      OrphanKeepsInv(s);
    } else if Accepts(s, c) {
      assert AvailablePaths(Filed(s, c)) == AvailablePaths(s);
      StoringKeepsInv(Filed(s, c), FileFor(s, c), c.upload.operationRef != "", c.upload.runRef != "", c.now);
    }
  }

  lemma ForgettingKeepsStorageExact(s: State, t: State, ids: set<nat>)
    requires Inv(s) && ids <= s.versions.Keys && t.lost == s.lost && t.orphans == s.orphans
    requires t.storage == s.storage - Paths(s.versions, ids)
    requires t.versions.Keys <= s.versions.Keys
    requires forall v :: v in s.versions && v !in ids ==> v in t.versions && t.versions[v] == s.versions[v]
    requires forall v :: v in ids && v in t.versions ==> t.versions[v].status != Available
    ensures t.storage == AvailablePaths(t) + t.orphans - t.lost
  {
    forall p ensures p in t.storage <==> p in AvailablePaths(t) + t.orphans - t.lost {
      if p in t.storage && p !in t.orphans {
        var v :| v in s.versions && s.versions[v].status == Available && s.versions[v].path == p;
        assert v !in ids;
      }
      if p in AvailablePaths(t) && p !in t.lost {
        var v :| v in t.versions && t.versions[v].status == Available && t.versions[v].path == p;
        assert v !in ids && p in AvailablePaths(s);
        assert forall w :: w in ids && s.versions[w].path == p ==> w == v;
      }
    }
  }

  lemma DeleteKeepsInv(s: State, file: nat, ids: set<nat>, now: nat)
    requires Inv(s) && ids <= VersionsOf(s.versions, file)
    ensures Inv(Deleting(s, file, ids, now))
  {
    var t := Deleting(s, file, ids, now);
    if DeleteAllowed(s, file, ids, now) {
      ForgettingKeepsStorageExact(s, t, ids);
      assert forall v :: v in t.versions && s.versions[v].file == file ==> v in VersionsOf(t.versions, file);
    }
  }

  lemma QueueIds(versions: map<nat, FileVersion>, now: nat, limit: Option<nat>)
    ensures forall v :: v in Queue(versions, now, limit) ==> v in versions && Expired(versions[v], now)
    ensures limit.None? ==> forall v :: v in versions && Expired(versions[v], now) ==> v in Queue(versions, now, limit)
  {
    SortByMembers(Ordered(ExpiredIds(versions, now)), ByDate(versions));
  }

  lemma CleanKeepsStructure(s: State, ids: set<nat>)
    requires Structured(s) && LinksHeld(s)
    ensures Structured(Cleaning(s, ids)) && LinksHeld(Cleaning(s, ids))
  {
  }

  lemma CleanKeepsInv(s: State, ids: set<nat>)
    requires Inv(s) && ids <= s.versions.Keys
    ensures Inv(Cleaning(s, ids))
  {
    CleanKeepsStructure(s, ids);
    ForgettingKeepsStorageExact(s, Cleaning(s, ids), ids);
  }

  lemma SamePaths(s: State, t: State)
    requires s.versions.Keys == t.versions.Keys
    requires forall v :: v in s.versions ==>
               t.versions[v].path == s.versions[v].path && t.versions[v].status == s.versions[v].status
    ensures AvailablePaths(s) == AvailablePaths(t)
  {
    assert forall v :: v in s.versions <==> v in t.versions;
  }

  lemma LinkKeepsInv(s: State, v: nat)
    requires Inv(s)
    ensures Inv(Linking(s, v))
  {
    if v in s.versions {
      StatusKeepsStructure(s, v, s.versions[v].(operationRef := true, runRef := true));
      SamePaths(s, Linking(s, v));
    }
  }

  lemma DownloadKeepsInv(s: State, v: nat, seen: Seen, now: nat)
    requires Inv(s)
    ensures Inv(Downloading(s, v, seen, now))
  {
    var t := Downloading(s, v, seen, now);
    if t != s {
      StatusKeepsStructure(s, v, s.versions[v].(status := Missing));
      assert Paths(s.versions, {v}) == {s.versions[v].path};
      ForgettingKeepsStorageExact(s, t, {v});
    }
  }

  lemma LoseKeepsInv(s: State, path: nat)
    requires Inv(s)
    ensures Inv(Losing(s, path))
  {
    assert AvailablePaths(Losing(s, path)) == AvailablePaths(s);
  }

  lemma ArchiveKeepsInv(s: State, file: nat)
    requires Inv(s)
    ensures Inv(Archiving(s, file))
  {
    SamePaths(s, Archiving(s, file));
  }

  lemma NextKeepsInv(s: State, c: Command)
    requires Inv(s)
    ensures Inv(Next(s, c))
  {
    match c
    case Create(_, _, _, _, _, _, _) => CreateKeepsInv(s, c);
    case LinkInput(v) => LinkKeepsInv(s, v);
    case DeleteUpload(file, now) => DeleteKeepsInv(s, file, VersionsOf(s.versions, file), now);
    case DeleteVersion(v, now) =>
      if v in s.versions { DeleteKeepsInv(s, s.versions[v].file, {v}, now); }
    case Cleanup(now, limit) =>
      QueueIds(s.versions, now, limit);
      CleanKeepsInv(s, Members(Queue(s.versions, now, limit)));
    case Download(v, seen, now) => DownloadKeepsInv(s, v, seen, now);
    case Archive(file) => ArchiveKeepsInv(s, file);
    case Lose(path) => LoseKeepsInv(s, path);
    case Abandon => OrphanKeepsInv(s);
  }

  lemma {:induction false} RunKeepsInv(commands: seq<Command>)
    ensures Inv(Run(EMPTY, commands))
    decreases |commands|
  {
    if commands != [] {
      RunKeepsInv(commands[..|commands| - 1]);
      NextKeepsInv(Run(EMPTY, commands[..|commands| - 1]), commands[|commands| - 1]);
    }
  }

  /** The steps that part storage from the available versions: losing a stored file, abandoning a created version, and a
      create that gets as far as storing the bytes of a row the database does not take. */
  predicate Disturbs(s: State, c: Command) {
    match c
    case Lose(path) => path in s.storage
    case Abandon => true
    case Create(_, _, _, _, _, _, _) => Accepts(s, c) && !RowFits(s, c)
    case _ => false
  }

  predicate Undisturbed(commands: seq<Command>)
    decreases |commands|
  {
    commands == []
    || (Undisturbed(commands[..|commands| - 1])
        && !Disturbs(Run(EMPTY, commands[..|commands| - 1]), commands[|commands| - 1]))
  }

  lemma DisturbedStep(s: State, c: Command)
    requires Inv(s)
    ensures var t := Next(s, c);
      && s.lost <= t.lost && s.orphans <= t.orphans
      && (t.lost == s.lost && t.orphans == s.orphans <==> !Disturbs(s, c))
  {
  }

  lemma {:induction false} UndisturbedIff(commands: seq<Command>)
    ensures Undisturbed(commands) <==> Run(EMPTY, commands).lost == {} && Run(EMPTY, commands).orphans == {}
    decreases |commands|
  {
    if commands != [] {
      var most := commands[..|commands| - 1];
      UndisturbedIff(most);
      RunKeepsInv(most);
      DisturbedStep(Run(EMPTY, most), commands[|commands| - 1]);
    }
  }

  /** In every reachable state storage holds exactly the paths of available versions and those whose row was refused or
      rolled back, minus what was lost; and there are such and lost paths exactly if some step was a disturbing one. */
  lemma StorageMatchesMetadata(commands: seq<Command>)
    ensures var s := Run(EMPTY, commands);
      && s.storage == AvailablePaths(s) + s.orphans - s.lost
      && (Undisturbed(commands) <==> s.lost == {} && s.orphans == {})
      && (Undisturbed(commands) ==> s.storage == AvailablePaths(s))
  {
    RunKeepsInv(commands);
    UndisturbedIff(commands);
  }

  /** A create keeps storage and available versions in step exactly when it is refused before the bytes are stored or
      the database takes the version row: names and content type of 255 characters, references of 64, no NUL, and a
      number. */
  lemma CreateKeepsStepIff(s: State, c: Command)
    requires Inv(s) && c.Create? && s.storage == AvailablePaths(s)
    ensures Creating(s, c).storage == AvailablePaths(Creating(s, c)) <==> (Accepts(s, c) ==> RowFits(s, c))
  {
    if Accepts(s, c) && RowFits(s, c) {
      assert AvailablePaths(Filed(s, c)) == AvailablePaths(s);
      StoredPaths(Filed(s, c), Creating(s, c));
    } else if Accepts(s, c) {
      assert AvailablePaths(Orphaning(s)) == AvailablePaths(s);
      assert s.nextPath !in AvailablePaths(s);
    }
  }

  function Xs(n: nat): (text: string)
    ensures |text| == n && forall i :: 0 <= i < n ==> text[i] == 'x'
  {
    seq(n, _ => 'x')
  }

  /** The first upload of a new file as an input of store 1. */
  function FirstUpload(contentType: string): Command {
    Create(None, 1, WbDiscountsExcel, Input, DiscountsExcel, Upload("a.xlsx", "", contentType, "", ""), 0)
  }

  /** A further version of file 1 with the given name. */
  function NextUpload(name: string): Command {
    Create(Some(1), 1, WbDiscountsExcel, Input, DiscountsExcel, Upload(name, "", "", "", ""), 0)
  }

  /** A content type of 256 characters leaves the bytes of a new file behind, without file or version. */
  lemma LongContentTypeOrphans()
    ensures var s := Run(EMPTY, [FirstUpload(Xs(256))]);
      s.files == map[] && s.versions == map[] && s.storage == {1} == s.orphans
  {
    assert Xs(256)[255] == 'x';
    assert !RowFits(EMPTY, FirstUpload(Xs(256)));
    assert [FirstUpload(Xs(256))][..0] == [];
  }

  /** A name of 256 characters does so for a further version, and would have been refused for a new file. */
  lemma LongNameOrphans()
    ensures var first := [FirstUpload("")]; var s := Run(EMPTY, first + [NextUpload(Xs(256))]);
      && s.versions.Keys == {1} && AvailablePaths(s) == {1} && s.storage == {1, 2} && s.orphans == {2}
      && !Accepts(EMPTY, NextUpload(Xs(256)).(into := None))
  {
    var first, c := [FirstUpload("")], NextUpload(Xs(256));
    assert first[..0] == [] && (first + [c])[..1] == first;
    assert Numbers(EMPTY.versions, 1) == {};
    var s := Run(EMPTY, first);
    assert s == Next(EMPTY, FirstUpload(""));
    assert s.versions.Keys == {1} && s.versions[1].status == Available && s.versions[1].path == 1;
    assert Xs(256)[255] == 'x';
    assert !RowFits(s, c);
    assert Run(EMPTY, first + [c]) == Next(s, c) == Orphaning(s);
  }

  lemma LinkedStep(s: State, c: Command, v: nat)
    requires Inv(s) && v in s.links
    ensures v in Next(s, c).links && v in Next(s, c).versions
  {
    NextKeepsInv(s, c);
    LinksGrow(s, c, v);
  }

  lemma LinksGrow(s: State, c: Command, v: nat)
    requires v in s.links
    ensures v in Next(s, c).links
  {
  }

  /** A version once linked as an operation input stays in the table over every continuation. */
  lemma {:induction false} LinkedNeverDeleted(before: seq<Command>, after: seq<Command>, v: nat)
    requires v in Run(EMPTY, before).links
    ensures v in Run(EMPTY, before + after).links && v in Run(EMPTY, before + after).versions
    decreases |after|
  {
    if after == [] {
      assert before + after == before;
      RunKeepsInv(before);
    } else {
      var most, last := after[..|after| - 1], after[|after| - 1];
      assert (before + after)[..|before + after| - 1] == before + most;
      LinkedNeverDeleted(before, most, v);
      RunKeepsInv(before + most);
      LinkedStep(Run(EMPTY, before + most), last, v);
    }
  }

  /** After an unlimited cleanup, a cleanup at the same time has nothing to look at. */
  lemma SecondCleanupScansNothing(s: State, now: nat)
    ensures Queue(Cleaning(s, Members(Queue(s.versions, now, None))).versions, now, None) == []
  {
    var after := Cleaning(s, Members(Queue(s.versions, now, None))).versions;
    QueueIds(s.versions, now, None);
    forall v | v in after ensures !Expired(after[v], now) {
      if v in Queue(s.versions, now, None) { assert after[v].status != Available; }
    }
    assert ExpiredIds(after, now) == {};
    assert Ordered(ExpiredIds(after, now)) == [];
  }

  predicate UpToDate(s: State, version: nat, seen: Seen) {
    version in s.versions && s.versions[version].file in s.files
    && seen == Seen(s.files[s.versions[version].file].active, s.versions[version].status)
  }

  /** Through an up-to-date object a download serves exactly the unexpired available versions of active files that were
      not lost, and records as missing exactly the lost ones. Through an older object it can serve nothing else, but it
      records as missing a version that cleanup has deleted since, exactly if the object still shows it and its date is
      not reached, so that the cleanup was given a later time. */
  lemma DownloadMeaning(s: State, version: nat, seen: Seen, now: nat)
    requires Inv(s) && version in s.versions
    ensures var t, v := Downloading(s, version, seen, now), s.versions[version];
      && (Downloadable(s, version, seen, now) && v.path in s.storage ==> v.status == Available && v.path !in s.lost)
      && (UpToDate(s, version, seen) ==>
            && (Downloadable(s, version, seen, now) && v.path in s.storage <==>
                  s.files[v.file].active && v.status == Available && now < v.retentionUntil && v.path !in s.lost)
            && (t != s <==> Downloadable(s, version, seen, now) && v.path in s.lost))
      && (v.status == RetentionDeleted ==>
            (t.versions[version].status == Missing <==> Downloadable(s, version, seen, now)))
  {
    StoredIffAvailable(s, version);
  }

  // ---------- retention over time ----------

  predicate Timed(c: Command) { c.Create? || c.DeleteUpload? || c.DeleteVersion? || c.Cleanup? || c.Download? }

  /** The times the steps are given never go back. */
  predicate Chronological(commands: seq<Command>) {
    forall i, j :: 0 <= i < j < |commands| && Timed(commands[i]) && Timed(commands[j]) ==>
                     commands[i].now <= commands[j].now
  }

  predicate Retired(s: State, v: nat) { v in s.versions && s.versions[v].status == RetentionDeleted }

  /** Only a cleanup at or after its retention date retires a version. */
  lemma RetiringStep(s: State, c: Command, v: nat)
    requires Inv(s) && Retired(Next(s, c), v)
    ensures (Retired(s, v) && Next(s, c).versions[v].retentionUntil == s.versions[v].retentionUntil)
            || (c.Cleanup? && Next(s, c).versions[v].retentionUntil <= c.now)
  {
    if c.Cleanup? { QueueIds(s.versions, c.now, c.limit); }
  }

  ghost predicate CleanedBy(commands: seq<Command>, until: nat) {
    exists i :: 0 <= i < |commands| && commands[i].Cleanup? && until <= commands[i].now
  }

  lemma {:induction false} RetiredByCleanup(commands: seq<Command>, v: nat)
    requires Retired(Run(EMPTY, commands), v)
    ensures CleanedBy(commands, Run(EMPTY, commands).versions[v].retentionUntil)
    decreases |commands|
  {
    if commands != [] {
      var most, last := commands[..|commands| - 1], commands[|commands| - 1];
      var s, until := Run(EMPTY, most), Run(EMPTY, commands).versions[v].retentionUntil;
      RunKeepsInv(most);
      RetiringStep(s, last, v);
      if Retired(s, v) && s.versions[v].retentionUntil == until {
        RetiredByCleanup(most, v);
        var i :| 0 <= i < |most| && most[i].Cleanup? && until <= most[i].now;
        assert commands[i] == most[i];
      } else {
        assert commands[|commands| - 1].Cleanup?;
      }
    }
  }

  /** A retired version leaves that status only for a download through an object that still shows it available. */
  lemma RetiredStep(s: State, c: Command, v: nat)
    requires Inv(s) && Retired(s, v)
    ensures v in Next(s, c).versions
    ensures Retired(Next(s, c), v) <==> !(c.Download? && c.version == v && Downloadable(s, v, c.seen, c.now))
  {
    StoredIffAvailable(s, v);
    if c.Cleanup? { QueueIds(s.versions, c.now, c.limit); }
    if c.DeleteUpload? { DeletingKeepsUnavailable(s, c.file, VersionsOf(s.versions, c.file), c.now, v); }
    if c.DeleteVersion? && c.version in s.versions {
      DeletingKeepsUnavailable(s, s.versions[c.version].file, {c.version}, c.now, v);
    }
  }

  lemma DeletingKeepsUnavailable(s: State, file: nat, ids: set<nat>, now: nat, v: nat)
    requires ids <= s.versions.Keys && v in s.versions && s.versions[v].status != Available
    ensures var t := Deleting(s, file, ids, now); v in t.versions && t.versions[v] == s.versions[v]
  {
  }

  /** While times never go back, a version deleted by retention stays so, whatever objects callers still hold. */
  lemma {:induction false} RetiredForGood(before: seq<Command>, after: seq<Command>, v: nat)
    requires Retired(Run(EMPTY, before), v) && Chronological(before + after)
    ensures Retired(Run(EMPTY, before + after), v)
    decreases |after|
  {
    if after == [] {
      assert before + after == before;
    } else {
      var most, last := after[..|after| - 1], after[|after| - 1];
      var all := before + most;
      assert (before + after)[..|before + after| - 1] == all && before + after == all + [last];
      assert forall i :: 0 <= i < |all| ==> (before + after)[i] == all[i];
      RetiredForGood(before, most, v);
      RunKeepsInv(all);
      RetiredByCleanup(all, v);
      var i :| 0 <= i < |all| && all[i].Cleanup? && Run(EMPTY, all).versions[v].retentionUntil <= all[i].now;
      assert (before + after)[i] == all[i] && (before + after)[|all|] == last;
      RetiredStep(Run(EMPTY, all), last, v);
    }
  }

  /** A cleanup given a time ahead of the clock: a download before that time, through an object read before the cleanup,
      records the version it deleted as missing. */
  lemma EarlyCleanupExample()
    ensures var deleted := [FirstUpload(""), Cleanup(RETENTION_SECONDS, None)];
      var all := deleted + [Download(1, Seen(true, Available), 1)];
      && Retired(Run(EMPTY, deleted), 1) && !Chronological(all)
      && 1 in Run(EMPTY, all).versions && Run(EMPTY, all).versions[1].status == Missing
  {
    var first, cleanup := [FirstUpload("")], Cleanup(RETENTION_SECONDS, None);
    var deleted := [FirstUpload(""), cleanup];
    var all := deleted + [Download(1, Seen(true, Available), 1)];
    assert first[..0] == [] && deleted[..1] == first && all[..2] == deleted;
    assert all[1] == cleanup && all[2].Download?;
    var s := Run(EMPTY, first);
    assert Numbers(EMPTY.versions, 1) == {};
    assert s == Next(EMPTY, FirstUpload(""));
    assert s.versions.Keys == {1} && Expired(s.versions[1], RETENTION_SECONDS);
    QueueIds(s.versions, RETENTION_SECONDS, None);
    assert Run(EMPTY, deleted) == Next(s, cleanup);
    assert 1 in Members(Queue(s.versions, RETENTION_SECONDS, None));
    assert Run(EMPTY, all) == Next(Run(EMPTY, deleted), all[2]);
  }

  lemma StoredIffAvailable(s: State, version: nat)
    requires Inv(s) && version in s.versions
    ensures s.versions[version].path in s.storage <==>
              s.versions[version].status == Available && s.versions[version].path !in s.lost
  {
    var p := s.versions[version].path;
    if s.versions[version].status == Available { assert p in AvailablePaths(s); }
    if p in AvailablePaths(s) {
      var w :| w in s.versions && s.versions[w].status == Available && s.versions[w].path == p;
      assert w == version;
    }
  }

  // ---------- the services ----------

  function Present(s: State, ids: seq<nat>): nat {
    if ids == [] then 0
    else Present(s, ids[..|ids| - 1])
         + (if ids[|ids| - 1] in s.versions && s.versions[ids[|ids| - 1]].path in s.storage then 1 else 0)
  }

  lemma QueueDistinct(versions: map<nat, FileVersion>, now: nat, limit: Option<nat>)
    ensures Distinct(Queue(versions, now, limit))
  {
    SortByDistinct(Ordered(ExpiredIds(versions, now)), ByDate(versions));
  }

  lemma MembersOneMore(ids: seq<nat>, n: nat)
    requires n < |ids| && Distinct(ids)
    ensures Members(ids[..n + 1]) == Members(ids[..n]) + {ids[n]} && ids[n] !in Members(ids[..n])
  {
    assert ids[..n + 1] == ids[..n] + [ids[n]];
  }

  lemma PathsOneMore(versions: map<nat, FileVersion>, done: set<nat>, id: nat)
    requires DistinctPaths(versions) && id in versions && id !in done
    ensures versions[id].path !in Paths(versions, done)
    ensures Paths(versions, done + {id}) == Paths(versions, done) + {versions[id].path}
  {
  }

  function CleaningOne(s: State, id: nat): State
    requires id in s.versions
  {
    var v := s.versions[id];
    s.(versions := s.versions[id := CleanedVersion(v, s.storage)], storage := s.storage - {v.path})
  }

  /** With distinct paths, the next version of a cleanup is found in storage as it was before the cleanup. */
  lemma CleanOneMore(s: State, done: set<nat>, id: nat)
    requires Inv(s) && id in s.versions && id !in done
    ensures var t := Cleaning(s, done);
      && id in t.versions && t.versions[id] == s.versions[id]
      && (s.versions[id].path in t.storage <==> s.versions[id].path in s.storage)
      && Cleaning(s, done + {id}) == CleaningOne(t, id)
  {
    PathsOneMore(s.versions, done, id);
  }

  ghost function CleanedSoFar(s: State, queue: seq<nat>, n: nat, dryRun: bool): State
    requires n <= |queue|
  {
    if dryRun then s else Cleaning(s, Members(queue[..n]))
  }

  lemma CleanedNext(s: State, queue: seq<nat>, n: nat, dryRun: bool)
    requires Inv(s) && n < |queue| && Distinct(queue) && forall v :: v in queue ==> v in s.versions
    ensures var t, id := CleanedSoFar(s, queue, n, dryRun), queue[n];
      && id in t.versions && t.versions[id] == s.versions[id]
      && (t.versions[id].path in t.storage <==> s.versions[id].path in s.storage)
      && CleanedSoFar(s, queue, n + 1, dryRun) == if dryRun then s else CleaningOne(t, id)
  {
    MembersOneMore(queue, n);
    CleanOneMore(s, Members(queue[..n]), queue[n]);
  }

  lemma PresentOneMore(s: State, ids: seq<nat>, n: nat)
    requires n < |ids| && ids[n] in s.versions
    ensures Present(s, ids[..n + 1]) == Present(s, ids[..n]) + (if s.versions[ids[n]].path in s.storage then 1 else 0)
  {
    assert ids[..n + 1][..n] == ids[..n];
  }

  function FoundIn(versions: map<nat, FileVersion>, storage: set<nat>, ids: set<nat>): set<nat> {
    set v | v in ids && v in versions && versions[v].path in storage
  }

  lemma FoundOneMore(versions: map<nat, FileVersion>, storage: set<nat>, done: set<nat>, id: nat)
    requires id in versions && id !in done
    ensures FoundIn(versions, storage, done + {id}) ==
            FoundIn(versions, storage, done) + (if versions[id].path in storage then {id} else {})
    ensures id !in FoundIn(versions, storage, done)
  {
  }

  /** A created version is new, available under a fresh path, and has a greater number than the others of its file. */
  lemma CreateMeaning(s: State, c: Command)
    requires Inv(s) && c.Create? && Accepts(s, c) && RowFits(s, c)
    ensures var t, id := Creating(s, c), s.nextVersion;
      && id !in s.versions && t.versions.Keys == s.versions.Keys + {id}
      && (forall v :: v in s.versions ==> t.versions[v] == s.versions[v])
      && t.versions[id].status == Available && t.versions[id].retentionUntil == c.now + RETENTION_SECONDS
      && t.versions[id].path !in s.storage && t.storage == s.storage + {t.versions[id].path}
      && (forall v :: v in s.versions && s.versions[v].file == t.versions[id].file ==>
                        s.versions[v].versionNo < t.versions[id].versionNo)
  {
    NumbersBounded(s.versions, FileFor(s, c));
  }

  class FileStore {
    var files: map<nat, FileObject>
    var versions: map<nat, FileVersion>
    var storage: set<nat>
    var nextFile: nat
    var nextVersion: nat
    var nextPath: nat
    ghost var links: set<nat>
    ghost var lost: set<nat>
    ghost var orphans: set<nat>

    ghost function Contents(): State
      reads this
    {
      State(files, versions, storage, links, lost, orphans, nextFile, nextVersion, nextPath)
    }

    ghost predicate Valid()
      reads this
    {
      Inv(Contents())
    }

    constructor ()
      ensures Valid() && Contents() == EMPTY
    {
      files, versions, storage, nextFile, nextVersion, nextPath := map[], map[], {}, 1, 1, 1;
      links, lost, orphans := {}, {}, {};
    }

    method StoreVersion(file: nat, operationRef: bool, runRef: bool, now: nat) returns (id: nat)
      modifies this
      ensures Contents() == Storing(old(Contents()), file, operationRef, runRef, now) && id == old(nextVersion)
    {
      var no := Max(Numbers(versions, file)) + 1;
      var path := nextPath;
      storage := storage + {path};
      id := nextVersion;
      versions := versions[id := FileVersion(file, no, path, now + RETENTION_SECONDS, Available, operationRef, runRef)];
      nextVersion, nextPath := nextVersion + 1, nextPath + 1;
    }

    method FileAccepts(c: Command) returns (accepted: bool)
      requires c.Create?
      ensures accepted == Accepts(Contents(), c)
    {
      if c.into.None? { return NewFileFits(c.upload); }
      if c.into.value !in files { return false; }
      var f := files[c.into.value];
      return f.store == c.store && f.scenario == c.scenario && f.kind == c.kind && f.active;
    }

    method StoreOrphan()
      modifies this
      ensures Contents() == Orphaning(old(Contents()))
    {
      storage := storage + {nextPath};
      orphans := orphans + {nextPath};
      nextPath := nextPath + 1;
    }

    method StoreAccepted(c: Command) returns (id: nat)
      requires c.Create? && RowFits(Contents(), c) && Accepts(Contents(), c)
      modifies this
      ensures Contents() == Creating(old(Contents()), c) && id == old(nextVersion)
    {
      var file := nextFile;
      if c.into.Some? {
        file := c.into.value;
      } else {
        files := files[file := FileObject(c.store, c.scenario, c.kind, c.module_, true)];
        nextFile := nextFile + 1;
      }
      id := StoreVersion(file, c.upload.operationRef != "", c.upload.runRef != "", c.now);
    }

    /** Stores the bytes under a fresh path and records them as the next version number of the file; when the database
        does not take the row, the rows are rolled back and the bytes stay. */
    method CreateFileVersion(c: Command) returns (id: Result<nat>)
      requires Valid() && c.Create?
      modifies this
      ensures Valid() && Contents() == Next(old(Contents()), c)
      ensures id == if Accepts(old(Contents()), c) && RowFits(old(Contents()), c) then Ok(old(nextVersion)) else Raised
    {
      NextKeepsInv(Contents(), c);
      var accepted := FileAccepts(c);
      if !accepted { return Raised; }
      var file := if c.into.Some? then c.into.value else nextFile;
      if !TextsFit(c.upload) || Max(Numbers(versions, file)) >= MAX_NUMBER {
        StoreOrphan();
        return Raised;
      }
      var version := StoreAccepted(c);
      return Ok(version);
    }

    /** Removes the stored files of the given versions, in any order, counting those found and those missing. */
    method DeletePhysical(rows: map<nat, FileVersion>, ids: set<nat>) returns (deleted: nat, missing: nat)
      requires DistinctPaths(rows) && ids <= rows.Keys
      modifies this`storage
      ensures storage == old(storage) - Paths(rows, ids)
      ensures deleted + missing == |ids| && deleted == |FoundIn(rows, old(storage), ids)|
    {
      deleted, missing := 0, 0;
      var done: set<nat> := {};
      ghost var before := storage;
      while ids - done != {}
        invariant done <= ids && storage == before - Paths(rows, done)
        invariant deleted + missing == |done| && deleted == |FoundIn(rows, before, done)|
        decreases ids - done
      {
        var v :| v in ids - done;
        var path := rows[v].path;
        PathsOneMore(rows, done, v);
        FoundOneMore(rows, before, done, v);
        if path in storage {
          deleted := deleted + 1;
        } else {
          missing := missing + 1;
        }
        storage := storage - {path};
        done := done + {v};
      }
      AllDone(ids, done);
    }

    method DeletePreOperationVersions(file: nat, ids: set<nat>, now: nat) returns (counts: Result<(nat, nat)>)
      requires Valid() && ids <= VersionsOf(versions, file)
      modifies this
      ensures Valid() && Contents() == Deleting(old(Contents()), file, ids, now)
      ensures counts.Ok? <==> DeleteAllowed(old(Contents()), file, ids, now)
      ensures counts.Ok? ==> counts.value.0 + counts.value.1 == |ids| && ids !! old(links)
                             && counts.value.0 == |FoundIn(old(versions), old(storage), ids)|
    {
      DeleteKeepsInv(Contents(), file, ids, now);
      if file !in files || files[file].kind != Input || !files[file].active { return Raised; }
      if exists v | v in VersionsOf(versions, file) :: Referenced(versions[v]) { return Raised; }
      if ids == {} { return Raised; }
      if exists v | v in ids ::
           Referenced(versions[v]) || versions[v].status != Available || versions[v].retentionUntil <= now {
        return Raised;
      }
      assert forall v :: v in ids ==> v in VersionsOf(versions, file);
      var deleted, missing := DeletePhysical(versions, ids);
      versions := versions - ids;
      if VersionsOf(versions, file) == {} {
        files := files - {file};
      }
      return Ok((deleted, missing));
    }

    method DeleteUploadedFile(file: nat, now: nat) returns (counts: Result<(nat, nat)>)
      requires Valid()
      modifies this
      ensures Valid() && Contents() == Next(old(Contents()), DeleteUpload(file, now))
      ensures counts.Ok? <==> DeleteAllowed(old(Contents()), file, VersionsOf(old(versions), file), now)
    {
      counts := DeletePreOperationVersions(file, VersionsOf(versions, file), now);
    }

    method DeleteUploadedVersion(version: nat, now: nat) returns (counts: Result<(nat, nat)>)
      requires Valid()
      modifies this
      ensures Valid() && Contents() == Next(old(Contents()), DeleteVersion(version, now))
    {
      if version !in versions { return Raised; }
      counts := DeletePreOperationVersions(versions[version].file, {version}, now);
    }

    /** One version of a cleanup. */
    method CleanOne(id: nat, dryRun: bool) returns (present: bool)
      requires id in versions
      modifies this`versions, this`storage
      ensures present == (old(versions)[id].path in old(storage))
      ensures Contents() == if dryRun then old(Contents()) else CleaningOne(old(Contents()), id)
    {
      var version := versions[id];
      present := version.path in storage;
      if dryRun { return; }
      if present { storage := storage - {version.path}; }
      versions := versions[id := version.(status := if present then RetentionDeleted else Missing)];
    }

    /** Goes through the queue; the counts are those of the storage before the cleanup, dry run or not. */
    method CleanQueue(queue: seq<nat>, dryRun: bool) returns (deleted: nat, missing: nat)
      requires Valid() && Distinct(queue) && forall v :: v in queue ==> v in versions
      modifies this`versions, this`storage
      ensures Contents() == if dryRun then old(Contents()) else Cleaning(old(Contents()), Members(queue))
      ensures deleted + missing == |queue| && deleted == Present(old(Contents()), queue)
    {
      ghost var s := Contents();
      deleted, missing := 0, 0;
      for n := 0 to |queue|
        invariant Contents() == CleanedSoFar(s, queue, n, dryRun)
        invariant deleted + missing == n && deleted == Present(s, queue[..n])
      {
        CleanedNext(s, queue, n, dryRun);
        PresentOneMore(s, queue, n);
        var present := CleanOne(queue[n], dryRun);
        if present { deleted := deleted + 1; } else { missing := missing + 1; }
      }
      assert queue[..|queue|] == queue;
    }

    /** Looks at the expired versions in queue order; a dry run only counts. */
    method CleanupExpired(now: nat, dryRun: bool, limit: Option<nat>) returns (scanned: nat, deleted: nat, missing: nat)
      requires Valid()
      modifies this`versions, this`storage
      ensures Valid() && Contents() == if dryRun then old(Contents()) else Next(old(Contents()), Cleanup(now, limit))
      ensures scanned == |Queue(old(versions), now, limit)| == deleted + missing
      ensures deleted == Present(old(Contents()), Queue(old(versions), now, limit))
    {
      NextKeepsInv(Contents(), Cleanup(now, limit));
      QueueIds(versions, now, limit);
      QueueDistinct(versions, now, limit);
      var queue := Queue(versions, now, limit);
      deleted, missing := CleanQueue(queue, dryRun);
      scanned := |queue|;
    }

    /** Opens a version for download through the caller's object; a file found missing is recorded as missing. */
    method OpenForDownload(id: nat, seen: Seen, now: nat) returns (served: bool)
      requires Valid()
      modifies this`versions
      ensures Valid() && Contents() == Next(old(Contents()), Download(id, seen, now))
      ensures served <==> Downloadable(old(Contents()), id, seen, now) && old(versions)[id].path in storage
    {
      NextKeepsInv(Contents(), Download(id, seen, now));
      if id !in versions || !seen.active || seen.status != Available || versions[id].retentionUntil <= now {
        return false;
      }
      if versions[id].path !in storage {
        versions := versions[id := versions[id].(status := Missing)];
        return false;
      }
      return true;
    }
  }
}
