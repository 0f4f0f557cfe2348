/** What each file service accepts and writes, in terms of the stored fields alone. */
module FileContracts {
  import opened Common
  import opened OperationTypes
  import opened Files

  // ---------- creation ----------

  lemma MarketplacesOf()
    ensures MarketplaceOf(WbDiscountsExcel) == MarketplaceOf(WbApiPriceExport) == MarketplaceOf(WbApiPromotionExport)
            == Wb
    ensures MarketplaceOf(WbApiResultExcel) == MarketplaceOf(WbApiDetailReport) == MarketplaceOf(WbApiUploadReport)
            == Wb
    ensures MarketplaceOf(OzonDiscountsExcel) == MarketplaceOf(OzonElasticResultReport) == Ozon
    ensures MarketplaceOf(OzonElasticManualUploadExcel) == MarketplaceOf(OzonElasticUploadReport) == Ozon
  {
  }

  /** A text column takes no NUL, and beyond its length only spaces, which it drops. */
  ghost predicate TextOk(text: string, length: nat) {
    (forall i :: 0 <= i < |text| ==> text[i] != '\0') && forall i :: length <= i < |text| ==> text[i] == ' '
  }

  ghost predicate Unbroken(text: string) { forall i :: 0 <= i < |text| ==> text[i] != '\0' }

  /** A new file needs a name that fits, and a display name that fits; an existing one must be the active file of that
      store, scenario and kind. */
  lemma AcceptsIff(s: State, c: Command)
    requires c.Create?
    ensures Accepts(s, c) <==>
              if c.into.None? then
                && c.upload.name != "" && |c.upload.name| <= 255 && |c.upload.logicalName| <= 255
                && Unbroken(c.upload.name) && Unbroken(c.upload.logicalName)
              else
                && c.into.value in s.files && s.files[c.into.value].store == c.store
                && s.files[c.into.value].scenario == c.scenario && s.files[c.into.value].kind == c.kind
                && s.files[c.into.value].active
  {
  }

  lemma TextOkIff(text: string, length: nat)
    ensures ColumnTakes(text, length) <==> TextOk(text, length)
  {
  }

  /** The row fits when its four texts do and the file's numbers are not used up. */
  lemma RowFitsIff(s: State, c: Command)
    requires c.Create?
    ensures RowFits(s, c) <==>
              && TextOk(c.upload.name, 255) && TextOk(c.upload.contentType, 255)
              && TextOk(c.upload.operationRef, 64) && TextOk(c.upload.runRef, 64)
              && forall v :: v in s.versions && s.versions[v].file == FileFor(s, c) ==>
                   s.versions[v].versionNo < 2147483647
  {
    TextOkIff(c.upload.name, 255);
    TextOkIff(c.upload.contentType, 255);
    TextOkIff(c.upload.operationRef, 64);
    TextOkIff(c.upload.runRef, 64);
    var numbers := Numbers(s.versions, FileFor(s, c));
    forall v | v in s.versions && s.versions[v].file == FileFor(s, c) ensures s.versions[v].versionNo in numbers {
      assert v in VersionsOf(s.versions, FileFor(s, c));
    }
  }

  /** The number after the greatest of the file's, or 1. */
  ghost predicate NextNumber(versions: map<nat, FileVersion>, file: nat, no: nat) {
    (forall v :: v in versions && versions[v].file == file ==> versions[v].versionNo < no)
    && (no == 1 || exists v :: v in versions && versions[v].file == file && versions[v].versionNo + 1 == no)
  }

  lemma NumberMeaning(versions: map<nat, FileVersion>, file: nat)
    ensures NextNumber(versions, file, Max(Numbers(versions, file)) + 1)
  {
    NumbersBounded(versions, file);
    var numbers := Numbers(versions, file);
    if numbers == {} {
      MaxOfNone();
    } else {
      var v :| v in VersionsOf(versions, file) && versions[v].versionNo == Max(numbers);
    }
  }

  lemma MaxOfNone()
    ensures Max({}) == 0
  {
  }

  /** An accepted and fitting create adds one available version of the next number, kept for three days, under a fresh
      path with its bytes, and its file when none was given. */
  lemma CreatedMeaning(s: State, c: Command)
    requires Inv(s) && c.Create? && Accepts(s, c) && RowFits(s, c)
    ensures var t, file := Next(s, c), if c.into.Some? then c.into.value else s.nextFile;
      && t.files == (if c.into.Some? then s.files
                     else s.files[file := FileObject(c.store, c.scenario, c.kind, c.module_, true)])
      && s.nextVersion in t.versions
      && t.versions == s.versions[s.nextVersion := t.versions[s.nextVersion]]
      && t.storage == s.storage + {t.versions[s.nextVersion].path} && t.versions[s.nextVersion].path !in s.storage
      && var v := t.versions[s.nextVersion];
         && v.file == file && NextNumber(s.versions, file, v.versionNo) && v.retentionUntil == c.now + 259200
         && v.status == Available && (v.operationRef <==> c.upload.operationRef != "")
         && (v.runRef <==> c.upload.runRef != "")
  {
    NumberMeaning(s.versions, FileFor(s, c));
  }

  // ---------- links ----------

  /** Any use as an input or output sets both references. */
  lemma LinkMeaning(s: State, v: nat)
    requires v in s.versions
    ensures Next(s, LinkInput(v))
         == s.(links := s.links + {v}, versions := s.versions[v := s.versions[v].(operationRef := true,
                                                                                  runRef := true)])
  {
  }

  // ---------- deletion before use ----------

  /** Only versions of an active input file none of whose versions was used, each available and before its date. */
  ghost predicate Deletable(s: State, file: nat, ids: set<nat>, now: nat) {
    && file in s.files && s.files[file].kind == Input && s.files[file].active && ids != {}
    && (forall v :: v in s.versions && s.versions[v].file == file ==>
          !s.versions[v].operationRef && !s.versions[v].runRef)
    && forall v :: v in ids ==> v in s.versions && s.versions[v].file == file && s.versions[v].status == Available
                                && now < s.versions[v].retentionUntil
  }

  /** The rows and bytes of the versions go, and the file's row with its last version. */
  ghost predicate Deleted(s: State, t: State, file: nat, ids: set<nat>) {
    && t.versions.Keys == s.versions.Keys - ids && (forall v :: v in t.versions ==> t.versions[v] == s.versions[v])
    && (forall p :: p in t.storage <==> p in s.storage && forall v :: v in ids && v in s.versions ==>
          s.versions[v].path != p)
    && t.files.Keys == (if forall v :: v in s.versions && s.versions[v].file == file ==> v in ids
                        then s.files.Keys - {file} else s.files.Keys)
    && forall f :: f in t.files ==> t.files[f] == s.files[f]
  }

  lemma DeletingMeaning(s: State, file: nat, ids: set<nat>, now: nat)
    requires ids <= VersionsOf(s.versions, file)
    ensures var t := Deleting(s, file, ids, now);
      if Deletable(s, file, ids, now) then Deleted(s, t, file, ids) else t == s
  {
    DeletableIff(s, file, ids, now);
    if Deletable(s, file, ids, now) { LastVersionIff(s, file, ids); }
  }

  lemma DeletableIff(s: State, file: nat, ids: set<nat>, now: nat)
    requires ids <= VersionsOf(s.versions, file)
    ensures DeleteAllowed(s, file, ids, now) <==> Deletable(s, file, ids, now)
  {
    forall v ensures v in VersionsOf(s.versions, file) <==> v in s.versions && s.versions[v].file == file {
    }
  }

  lemma LastVersionIff(s: State, file: nat, ids: set<nat>)
    requires ids <= VersionsOf(s.versions, file)
    ensures VersionsOf(s.versions - ids, file) == {} <==>
              forall v :: v in s.versions && s.versions[v].file == file ==> v in ids
  {
    if VersionsOf(s.versions - ids, file) == {} {
      forall v | v in s.versions && s.versions[v].file == file ensures v in ids {
        assert v !in VersionsOf(s.versions - ids, file);
      }
    }
  }

  /** An upload is deleted with all its versions. */
  lemma DeleteUploadMeaning(s: State, file: nat, now: nat)
    ensures var ids := set v | v in s.versions && s.versions[v].file == file; var t := Next(s, DeleteUpload(file, now));
      if Deletable(s, file, ids, now) then Deleted(s, t, file, ids) else t == s
  {
    var ids := set v | v in s.versions && s.versions[v].file == file;
    assert ids == VersionsOf(s.versions, file);
    DeletingMeaning(s, file, ids, now);
  }

  lemma DeleteVersionMeaning(s: State, v: nat, now: nat)
    requires v in s.versions
    ensures var file, t := s.versions[v].file, Next(s, DeleteVersion(v, now));
      if Deletable(s, file, {v}, now) then Deleted(s, t, file, {v}) else t == s
  {
    assert {v} <= VersionsOf(s.versions, s.versions[v].file);
    DeletingMeaning(s, s.versions[v].file, {v}, now);
  }

  // ---------- cleanup ----------

  /** By retention date, then id. */
  ghost predicate Sooner(versions: map<nat, FileVersion>, a: nat, b: nat)
    requires a in versions && b in versions
  {
    versions[a].retentionUntil < versions[b].retentionUntil
    || (versions[a].retentionUntil == versions[b].retentionUntil && a < b)
  }

  ghost predicate Due(versions: map<nat, FileVersion>, v: nat, now: nat) {
    v in versions && versions[v].status == Available && versions[v].retentionUntil <= now
  }

  lemma EarlierIff(versions: map<nat, FileVersion>, a: nat, b: nat)
    requires a in versions && b in versions
    ensures Earlier(versions, a, b) <==> Sooner(versions, a, b) || a == b
  {
  }

  ghost predicate IsEarlier(versions: map<nat, FileVersion>, le: (nat, nat) -> bool) {
    forall a, b :: le(a, b) <==> Earlier(versions, a, b)
  }

  /** Insertion keeps the order, which is transitive on versions of the table. */
  lemma {:induction false} DueInserted(versions: map<nat, FileVersion>, x: nat, s: seq<nat>, le: (nat, nat) -> bool)
    requires IsEarlier(versions, le) && x in versions && (forall v :: v in s ==> v in versions) && SortedBy(s, le)
    ensures SortedBy(Insert(x, s, le), le)
  {
    var r := Insert(x, s, le);
    if s == [] {
    } else if le(x, s[0]) {
      forall i, j | 0 <= i < j < |r| ensures le(r[i], r[j]) {
        assert i == 0 ==> le(s[0], s[j - 1]) || j == 1;
      }
    } else {
      var rest := Insert(x, s[1..], le);
      DueInserted(versions, x, s[1..], le);
      InsertContents(x, s[1..], le);
      forall y | y in rest ensures le(s[0], y) {
        assert y in multiset(rest);
        assert y == x || y in s[1..];
      }
    }
  }

  lemma {:induction false} DueSorted(versions: map<nat, FileVersion>, s: seq<nat>, le: (nat, nat) -> bool)
    requires IsEarlier(versions, le) && forall v :: v in s ==> v in versions
    ensures SortedBy(SortBy(s, le), le)
  {
    if s != [] {
      DueSorted(versions, s[1..], le);
      SortByMembers(s[1..], le);
      DueInserted(versions, s[0], SortBy(s[1..], le), le);
    }
  }

  /** A cleanup takes exactly due versions, the soonest first, each once; with a limit it stops there, and what it
      leaves comes later. */
  lemma QueueMeaning(versions: map<nat, FileVersion>, now: nat, limit: Option<nat>)
    ensures var queue := Queue(versions, now, limit);
      && (forall v :: v in queue ==> Due(versions, v, now))
      && (forall i, j :: 0 <= i < j < |queue| ==>
            queue[i] in versions && queue[j] in versions && Sooner(versions, queue[i], queue[j]))
      && (limit.Some? ==> |queue| <= limit.value)
      && (forall v :: Due(versions, v, now) && v !in queue ==>
            limit.Some? && |queue| == limit.value
            && forall u :: u in queue ==> u in versions && v in versions && Sooner(versions, u, v))
  {
    var ids, le := Ordered(ExpiredIds(versions, now)), ByDate(versions);
    var all, queue := SortBy(ids, le), Queue(versions, now, limit);
    SortByMembers(ids, le);
    SortByDistinct(ids, le);
    DueSorted(versions, ids, le);
    forall v ensures v in all <==> Due(versions, v, now) { assert v in all <==> v in ExpiredIds(versions, now); }
    assert queue == if limit.Some? && limit.value < |all| then all[..limit.value] else all;
    forall i, j | 0 <= i < j < |all|
      ensures all[i] in versions && all[j] in versions && Sooner(versions, all[i], all[j])
    {
      assert all[i] in all && all[j] in all;
      assert le(all[i], all[j]);
      EarlierIff(versions, all[i], all[j]);
    }
    forall v, u | Due(versions, v, now) && v !in queue && u in queue ensures Sooner(versions, u, v) {
      var i :| 0 <= i < |queue| && queue[i] == u;
      var j :| 0 <= j < |all| && all[j] == v;
    }
  }

  /** The taken versions become deleted by retention, or missing where the bytes were; their bytes go, and nothing else
      changes. */
  lemma CleanupMeaning(s: State, now: nat, limit: Option<nat>)
    ensures var t, queue := Next(s, Cleanup(now, limit)), Queue(s.versions, now, limit);
      && t.versions.Keys == s.versions.Keys && t.files == s.files
      && (forall v :: v in s.versions ==>
            t.versions[v] == if v !in queue then s.versions[v]
                             else if s.versions[v].path in s.storage then s.versions[v].(status := RetentionDeleted)
                             else s.versions[v].(status := Missing))
      && forall p :: p in t.storage <==>
           p in s.storage && forall v :: v in queue && v in s.versions ==> s.versions[v].path != p
  {
  }

  /** Those of the queue whose bytes are there. */
  ghost function Found(s: State, ids: seq<nat>): set<nat> {
    set v | v in ids && v in s.versions && s.versions[v].path in s.storage
  }

  /** A cleanup counts as deleted exactly those. */
  lemma {:induction false} PresentCount(s: State, ids: seq<nat>)
    requires Distinct(ids)
    ensures Present(s, ids) == |Found(s, ids)|
  {
    if ids == [] {
      assert Found(s, ids) == {};
    } else {
      var most, last := ids[..|ids| - 1], ids[|ids| - 1];
      assert forall i :: 0 <= i < |most| ==> ids[i] == most[i];
      PresentCount(s, most);
      assert last !in most && forall v :: v in ids <==> v in most || v == last;
      if last in s.versions && s.versions[last].path in s.storage {
        assert Found(s, ids) == Found(s, most) + {last};
      } else {
        assert Found(s, ids) == Found(s, most);
      }
    }
  }

  // ---------- downloads ----------

  /** A version is recorded as missing exactly when the caller's object and the date allow the download and its bytes
      are gone; nothing else changes. */
  lemma DownloadStepMeaning(s: State, v: nat, seen: Seen, now: nat)
    requires v in s.versions
    ensures var t := Next(s, Download(v, seen, now));
      t == if seen.active && seen.status == Available && now < s.versions[v].retentionUntil
              && s.versions[v].path !in s.storage
           then s.(versions := s.versions[v := s.versions[v].(status := Missing)]) else s
  {
  }

  lemma ArchiveMeaning(s: State, file: nat)
    requires file in s.files
    ensures Next(s, Archive(file)) == s.(files := s.files[file := s.files[file].(active := false)])
  {
  }

  /** The time a command is given, for those that look at one. */
  ghost function TimeOf(c: Command): Option<nat> {
    match c
    case Create(_, _, _, _, _, _, now) => Some(now)
    case DeleteUpload(_, now) => Some(now)
    case DeleteVersion(_, now) => Some(now)
    case Cleanup(now, _) => Some(now)
    case Download(_, _, now) => Some(now)
    case _ => None
  }

  /** Commands given at the successive times of a clock that may stand still are chronological. */
  lemma ClockIsChronological(commands: seq<Command>, clock: seq<nat>)
    requires |clock| == |commands| && forall i, j :: 0 <= i <= j < |clock| ==> clock[i] <= clock[j]
    requires forall i :: 0 <= i < |commands| && TimeOf(commands[i]).Some? ==> TimeOf(commands[i]).value == clock[i]
    ensures Chronological(commands)
  {
    forall i, j | 0 <= i < j < |commands| && Timed(commands[i]) && Timed(commands[j])
      ensures commands[i].now <= commands[j].now
    {
      assert commands[i].now == clock[i] && commands[j].now == clock[j];
    }
  }
}
