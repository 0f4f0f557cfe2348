# promo_v2 in Dafny

A model of the hard parts of the promo_v2 back office, with proofs. Database tables are maps from ids to records; each
service call is a step on them, a raise rolls the step back, and "reachable" means reached by some sequence of steps.
For each imperative service there is a class (or a method with a loop) whose contract ties the new tables to the
step's specification function; what the program promises is proved about those functions and over whole runs of them.

* `OperationMetadata`, `OperationSteps`, `OperationInvariants`, `OperationRuns`, `OperationTables`: runs, checks,
  processes and API operations; frozen terminal records; canonical metadata; pressing "process" with arbitrary
  executors, which are functions from the stored rows to a script of service steps and an outcome.
* `VisibleIds`: ids such as `OP-2025-000042`, read back from a string maximum.
* `Enrichment`, `Backfill`: linking detail rows to listings by exact identifiers, and the batch over all rows.
* `Snapshots`, `SyncRuns`, `SyncAdapters`, `SyncCaches`: marketplace sync runs, the per-listing cache as a fold over
  completed runs, the four row-writing loops, and each of them followed from source rows to cached values.
* `Mapping`, `Sku`: listing-to-variant mapping as an event log, linkage by a valid article, the SKU grammar.
* `LinkedSync`: the row loops with the linkage of their listings, over the sync tables and the mapping tables at once.
* `Decimals`, `OzonElastic`, `OzonReview`: printing and parsing of decimals, the pricing decision, the review machine.
* `Files`: file versions, physical storage, deletion guards and retention.
* `LinkedFiles`: operations over the live file table.
* `OperationContracts`, `PressContracts`, `BackfillContracts`, `SyncContracts`, `MappingContracts`, `FileContracts`:
  what each step accepts and writes in terms of the stored fields alone, as an independent reading of the
  specification functions.
* `Common`, `OperationTypes`, `ReasonCodes`, `Dates`: shared vocabulary, and dates as they print before and after
  storing.

Run `dafny verify dfyconfig.toml`.

## Where the code keeps less than one would expect

Each of these is proved, with the exact condition under which the expected property does hold.

* Staleness is not absorbing. Confirming a deactivation (`apps/discounts/ozon_api/upload.py:161-209`) does not ask for
  the review state and sets it to accepted, so an outdated result becomes uploadable again. A stale result stays stale
  exactly unless that confirmation is made on a result with deactivations (`StaleStepIff`, `StaleCanBeRevived`,
  `RevivalExample`).
* A snapshot can be attached to a completed run. The check (`apps/product_core/services.py:504-508`) reads the
  caller's run object, while completion re-reads the row, so the object of the caller stays "running"
  (`AttachKeepsMatchIff`, `StaleHandleExample`). The cache is the fold over the snapshots a run had when it completed.
* A manual marker through an outdated listing object overwrites the mapped variant
  (`apps/product_core/services.py:2218-2243`), and the history no longer replays (`ChangeKeepsReplayIff`,
  `StaleMarkerUnmaps`).
* Rows can be added to a terminal operation. The guard (`apps/operations/models.py:699-701`) reads the caller's
  object, so an object from before the completion still saves inputs, parameters, detail rows, outputs and
  confirmations. A step keeps terminal operations frozen exactly when it saves no such late row (`StepFreezesIff`,
  `LateParameterThaws`).
* A process can be parted from its basis: by an input or parameter saved for the process while it is open, or, through
  an older object, for the check it rests on, or by a confirmable warning saved late for a check whose process has no
  confirmation (`StepKeepsBasedIff`, `OpenProcessParts`, `AttachmentsExample`, `LateWarningExample`). The services
  attach to new operations and to API operations only, which is enough (`DisciplinedRunIsBased`).
* Linking a listing through an object read before a manual mapping moves it to another variant
  (`apps/product_core/services.py:1111-1184`; `ApiLinkRepointsIff`, `StaleLinkExample`). All callers pass the object
  just read.
* A check is never actual for a request with a date outside UTC: the date is read back in UTC and prints differently
  (`apps/operations/services.py:165-201`). Every press with such a request makes another check and raises
  (`FreshCheckActualIff`, `PressNeedsUtc`, `OffsetDateExample`).
* A create stores the bytes before the version row, which is not validated first (`apps/files/services.py:152-211`). A
  name or content type over 255 characters, a reference over 64 or a NUL leaves the bytes behind
  (`CreateKeepsStepIff`, `LongContentTypeOrphans`, `LongNameOrphans`); a new file with such a name is refused in time.
* A cleanup called with a time ahead of the clock deletes early, and a download through an object read before it then
  records the version as missing (`apps/files/services.py:248-256`; `DownloadMeaning`, `EarlyCleanupExample`). While
  times never go back a version deleted by retention stays so (`RetiredForGood`).
* Visible ids collide from the 1,000,001st creation of a year on; the millionth still succeeds (`NextIsFree`).
* Linking a listing by a valid SKU of more than 64 characters raises when its variant has to be created
  (`apps/product_core/models.py:82`), since the product code would not fit (`ApiLinkOutcome`, `LongSkuRaises`,
  `LongArticleExample`, `LongSkuHasLongKit`).
* A backfill of an empty table raises: the high-water filter is given no id
  (`apps/operations/listing_enrichment.py:338-342`).

## Model

| member | source | states |
|---|---|---|
| `OperationMetadata.ParamsCanonical` | apps/operations/services.py:165-209 | Stored parameters in database order equal a request's sorted parameters exactly when, as read back, they print the same, in any order, provided codes are distinct |
| `OperationMetadata.StoredAsRequestedIff` | apps/operations/services.py:165-201 | Parameters stored from a request equal that request's exactly when every date in it is given in UTC |
| `OperationMetadata.MatchedInPrint` | apps/operations/services.py:212-254 | A request with a date outside UTC equals no stored parameters |
| `OperationMetadata.ParamsMatchIff` | apps/operations/services.py:165-203 | For dates of the years 1 to 9999: stored parameters equal a request's exactly when they are, as read back, the very parameters requested, in any order |
| `Dates.PrintsLikeIff` | apps/operations/services.py:193-203 | A date prints like one that was read back exactly when it is that very date in UTC |
| `Dates.ReadsBackIff` | apps/operations/services.py:173-201 | A date that is stored and read back in UTC prints as it was given exactly when it was given in UTC |
| `Dates.InUtcKeepsInstant` | apps/operations/services.py:193-203 | Reading back keeps the instant, and reading back again changes nothing |
| `OperationMetadata.InputsCanonical` | apps/operations/services.py:147-190 | The same for input links ordered by role, ordinal and version |
| `OperationMetadata.RequestsAgree` | apps/operations/services.py:165-178 | Two requests have the same metadata exactly when they ask for the same inputs and print their parameters alike, in any order |
| `OperationMetadata.StoredParamsAgree` | apps/operations/services.py:181-209 | Two operations' stored parameters compare equal exactly when they print alike as read back |
| `OperationMetadata.StoredInputsAgree` | apps/operations/services.py:181-190 | Two operations' stored inputs compare equal exactly when they hold the same inputs |
| `OperationMetadata.TuplesTotallyOrdered` | apps/operations/services.py:165-178 | Python's tuple order on metadata rows is total, antisymmetric and transitive, so sorting is canonical |
| `OperationMetadata.RepeatedCodeDiffers` | apps/operations/models.py:833-838 | Without the uniqueness of parameter codes the two computations can differ on the very same rows |
| `OperationSteps.StepGrows` | apps/operations/models.py:323-382 | Every accepted step keeps identities, only adds rows, and keeps the own row of every terminal operation, but for an Elastic summary |
| `OperationSteps.StepFreezesIff` | apps/operations/models.py:699-701 | An accepted step keeps every terminal operation frozen with its rows exactly when it saves no row, through an older object, for an operation that is terminal by then |
| `OperationInvariants.RunSettles` | apps/operations/models.py:658-663 | Over every sequence of steps all invariants stay, identities never change, rows are only added and the own row of a terminal operation stays |
| `OperationInvariants.RunFreezes` | apps/operations/models.py:699-701 | Over every sequence of steps that saves no late row, terminal operations stay frozen with all their rows |
| `OperationInvariants.TimelyIff` | apps/operations/models.py:699-701 | Such sequences are those at no step of which a late row is accepted |
| `OperationInvariants.ReachableInv` | apps/operations/models.py:600-641 | In every reachable state each stored operation passes the validation that saves repeat, input places and parameter codes are unique, detail rows name listings of the operation's store and marketplace, and outputs are owned |
| `OperationInvariants.EveryProcessIsBased` | apps/operations/services.py:416-489 | In every state reached by steps of the kind `StepKeepsBasedIff` characterises, each process rests on a still successful check with equal metadata, linked by a confirmation row if that check counts warnings and has no warning row, or a confirmable one |
| `OperationInvariants.ThroughoutIff` | apps/operations/services.py:416-489 | Such sequences are those each accepted step of which keeps the bases |
| `OperationInvariants.DisciplinedRunIsBased` | apps/operations/services.py:318-337 | So it does over every run that saves no late row and attaches inputs and parameters to no process |
| `OperationInvariants.StepKeepsBasedIff` | apps/operations/models.py:699-701 | Exactly which accepted steps keep every process on its basis: none that gives an input or parameter to a process or to a check one rests on, nor a confirmable warning to a check with an unconfirmed process |
| `OperationInvariants.LateParameterThaws` | apps/operations/models.py:842-845 | Through the object from its creation every completed basis accepts a fitting parameter with a new code, which thaws it and parts its process from it |
| `OperationInvariants.OpenProcessParts` | apps/operations/models.py:842-845 | Every open process accepts such a parameter through an up-to-date object, and is parted from its basis |
| `OperationInvariants.AttachmentsExample` | apps/operations/models.py:842-845 | A run to a state where both happen |
| `OperationInvariants.LateWarningExample` | apps/operations/models.py:960-963 | A run to a state where a confirmable warning saved late leaves a process without the confirmation it now requires |
| `OperationInvariants.OffsetDateExample` | apps/operations/services.py:165-201 | For every date outside UTC, a run to a successful check made from a request with it that is not actual for that request |
| `OperationInvariants.NewProcessBased` | apps/operations/services.py:443-488 | A created process has the metadata of its basis, and a confirmation row if the basis counts warnings and has no warning row, or a confirmable one |
| `OperationInvariants.UnconfirmedRaisesIff` | apps/operations/services.py:340-351 | On an actual basis, a process that could be stored is refused without confirmation exactly when the basis counts warnings and has no warning row, or a confirmable one |
| `OperationInvariants.RunStatusMeaning` | apps/operations/services.py:533-545 | In every reachable state a run with a running operation is running or interrupted, and a completed run has only created or terminal operations |
| `OperationInvariants.CompletionClosesRun` | apps/operations/services.py:686-689 | A completion leaves the run completed exactly when all its operations are then terminal, and otherwise leaves its status |
| `OperationInvariants.RunStatusMoves` | apps/operations/services.py:674-683 | Besides completions, only starting and interrupting an operation move the status of an existing run |
| `OperationInvariants.CompletionOutcome` | apps/operations/services.py:566-571 | A completed check is successful exactly when it reports no error; statuses say exactly which of errors and warnings there were |
| `OperationInvariants.OutputBelongsToOne` | apps/operations/models.py:773-798 | In every reachable state a file version is an output or result of at most one operation |
| `OperationContracts.CreateRunMeaning` | apps/operations/services.py:296-315 | A run is made exactly for a store of its marketplace |
| `OperationContracts.CreateCheckMeaning` | apps/operations/services.py:363-412 | Who may create a check, in Excel mode, for which store and run and with which inputs and parameters, field by field, and the whole new state |
| `OperationContracts.BasisOkIff` | apps/operations/services.py:181-254 | A check is actual for a request exactly when it was completed without errors, of the same scenario and logic version, with the same inputs and, in print, the same parameters in any order |
| `OperationContracts.CreateProcessMeaning` | apps/operations/services.py:415-489 | The same for a process: exactly on such a check, confirmed where that check warns, in its run unless another of the scenario is given; a confirmation row exactly if one was given |
| `OperationContracts.CreateApiMeaning` | apps/operations/services.py:492-530 | The same for an API operation, with the steps of each marketplace |
| `OperationContracts.StartMeaning` | apps/operations/services.py:533-545 | Starting works exactly on created and running operations; it sets operation and run running and nothing else |
| `OperationContracts.CompleteCheckMeaning` | apps/operations/services.py:548-584 | When a completion is accepted, the status by errors and warnings, the fields written, and the run completed exactly if no other operation of it is created or running |
| `OperationContracts.CompleteProcessMeaning` | apps/operations/services.py:587-629 | The same for a process, with an output version of its scenario that no operation has yet |
| `OperationContracts.CompleteApiMeaning` | apps/operations/services.py:632-671 | The same for an API operation, with one of four statuses |
| `OperationContracts.InterruptMeaning` | apps/operations/services.py:674-683 | Interruption, likewise, with the summary if one is given |
| `OperationContracts.AttachInputMeaning` | apps/operations/models.py:733-757 | Exactly when an input is accepted, by the fields of version, role and place and the status the caller's object shows, and what it adds |
| `OperationContracts.AttachParameterMeaning` | apps/operations/models.py:811-845 | The same for a parameter |
| `OperationContracts.AddDetailMeaning` | apps/operations/models.py:932-963 | The same for a detail row, with its reason codes |
| `OperationContracts.AddOutputMeaning` | apps/operations/models.py:773-798 | The same for an output file |
| `OperationContracts.ConfirmMeaning` | apps/operations/models.py:993-1007 | The same for a confirmation |
| `OperationContracts.EnrichDetailMeaning` | apps/operations/models.py:363-382 | The same for the listing of a detail row |
| `OperationContracts.SaveSummaryMeaning` | apps/discounts/ozon_api/review.py:83-89 | The same for the summary of an operation |
| `OperationContracts.AllShaped` | apps/operations/models.py:600-641 | In every reachable state an operation has a store of its marketplace, a run of its scenario, statuses by its type, a step exactly in API mode and a successful check exactly if it is a process |
| `PressContracts.FindActualIff` | apps/operations/services.py:257-293 | The check used is the newest that was completed without errors on the request's data |
| `PressContracts.CandidatesIff` | apps/operations/services.py:267-279 | Which rows the query fetches |
| `PressContracts.RunSyncMeaning` | apps/operations/services.py:692-725 | When running returns, and what it leaves when it raises: operation and run interrupted with the failure noted, unless the executor had ended the operation itself |
| `PressContracts.CheckPhaseMeaning` | apps/operations/services.py:755-791 | When a press makes a check, and the running row its executor is called for |
| `PressContracts.ProcessPhaseMeaning` | apps/operations/services.py:793-814 | When a press makes a process, and the running row, run and confirmation its executor finds |
| `PressContracts.PressMeaning` | apps/operations/services.py:728-814 | Without the right nothing happens, without a check the press ends there, and else a process is tried on an actual check |
| `OperationRuns.RunSyncSettles` | apps/operations/services.py:692-725 | For an arbitrary executor, a started operation is terminal when the call returns or raises |
| `OperationRuns.ActualAreCandidates` | apps/operations/services.py:267-279 | The query's filter drops no actual check |
| `OperationRuns.CheckRunsIffNoneActual` | apps/operations/services.py:755-791 | A check is made and run, once, exactly when no stored check is actual and its creation is accepted; otherwise the newest actual one is used |
| `OperationRuns.PressSettles` | apps/operations/services.py:728-814 | Every operation a press starts is terminal on every exit, for arbitrary executors |
| `OperationRuns.ProcessCallGrounded` | apps/operations/services.py:793-809 | The process executor is called at most once, for a running process whose basis is at that moment actual for the request |
| `OperationRuns.PressReturns` | apps/operations/services.py:810-814 | A press that returns hands back a check, actual when the process was made and still successful, and a new terminal process based on it |
| `OperationRuns.TimelyPressStaysActual` | apps/operations/services.py:793-814 | While the process executor saves no late row, that check is still actual at the end |
| `OperationRuns.QuietPressAddsOne` | apps/operations/services.py:728-814 | With executors that create and attach nothing, a returning press adds exactly one process, and a check only if none was actual |
| `OperationRuns.FreshCheckActualIff` | apps/operations/services.py:766-791 | A check made from a request and run by such an executor is actual for it exactly when it reports no error and the request gives its dates in UTC |
| `OperationRuns.PressNeedsUtc` | apps/operations/services.py:728-814 | For a request with a date outside UTC no check is ever actual, and no press returns |
| `OperationTables.Tables.AttachInputs` | apps/operations/services.py:318-325 | The loop succeeds exactly when every input fits and places are distinct, and then stores them in order |
| `OperationTables.Tables.AttachParameters` | apps/operations/services.py:328-337 | The loop succeeds exactly when every parameter fits and codes are distinct, and then stores them in order |
| `OperationTables.Tables.Insert` | apps/operations/services.py:397-412 | Creation is all or nothing: a refused row takes the operation back with it |
| `OperationTables.Tables.CreateCheckOperation` | apps/operations/services.py:363-412 | Creates the check, and its run unless given, or changes nothing |
| `OperationTables.Tables.CreateProcessOperation` | apps/operations/services.py:415-489 | Creates the process with its confirmation, or changes nothing |
| `OperationTables.Tables.CreateApiOperation` | apps/operations/services.py:492-530 | Creates an API operation, and its run unless given, or changes nothing |
| `OperationTables.Tables.StartOperation` | apps/operations/services.py:533-545 | Updates operation and run as the start step says, refusing terminal operations |
| `OperationTables.Tables.CloseRunIfAllTerminal` | apps/operations/services.py:686-689 | The loop over a run's operations completes the run exactly when all are terminal |
| `OperationTables.Tables.CompleteCheckOperation` | apps/operations/services.py:548-584 | Completes as the specification says, or changes nothing |
| `OperationTables.Tables.CompleteProcessOperation` | apps/operations/services.py:587-629 | Completes as the specification says, claiming an unused output version, or changes nothing |
| `OperationTables.Tables.CompleteApiOperation` | apps/operations/services.py:632-671 | Completes with one of the four terminal statuses, or changes nothing |
| `OperationTables.Tables.MarkInterruptedFailed` | apps/operations/services.py:674-683 | Interrupts operation and run and writes the failure summary given, refusing terminal operations |
| `OperationTables.Tables.AttachInputRow` | apps/operations/models.py:744-747 | Attaches an input, or nothing, by the status the caller's object shows |
| `OperationTables.Tables.AttachParameterRow` | apps/operations/models.py:842-845 | The same for a parameter |
| `OperationTables.Tables.AddDetailRow` | apps/operations/models.py:932-963 | The same for a detail row, with a reason code of the marketplace and a listing of the operation's store and marketplace |
| `OperationTables.Tables.ConfirmWarnings` | apps/operations/models.py:993-1007 | The same for a confirmation, by the status the process object shows |
| `OperationTables.Tables.FindActualSuccessfulCheck` | apps/operations/services.py:257-293 | The newest-first loop over the filtered rows finds the newest actual check of all |
| `OperationTables.Tables.RunOperation` | apps/operations/services.py:692-725 | Start, executor, completion, and interruption on any raise, as specified |
| `OperationTables.Tables.PressProcess` | apps/operations/services.py:728-814 | The whole press as specified, for arbitrary executors |
| `OperationTables.Tables.SetDetailListing` | apps/operations/models.py:363-382 | The one row change a terminal operation admits: a missing listing is set, to one of the operation's store and marketplace |
| `VisibleIds.VisibleSchemeSound` | apps/operations/models.py:643-656 | Zero padding makes the string order of a year's ids numeric, except that number 1000000 sorts below 999999 |
| `VisibleIds.GreatestIsCount` | apps/operations/models.py:646-650 | In every run of creations the string maximum of a year is its last number, up to 999999 |
| `VisibleIds.NextIsFree` | apps/operations/models.py:651-656 | The next id is free exactly while fewer than a million were issued, and greater than all before it below 999999 |
| `VisibleIds.NextIdMeaning` | apps/operations/models.py:643-656 | The number read back from the maximum, in every state creations reach |
| `VisibleIds.ForeignRestarts` | apps/operations/models.py:651-656 | After an id without six final digits the numbers start again at 1 |
| `VisibleIds.MaxVisibleId` | apps/operations/models.py:646-650 | The scan finds the string maximum among the ids of the year |
| `VisibleIds.VisibleIdTable.Assign` | apps/operations/models.py:665-686 | Assigns a fresh id or raises, exactly while the year has ids left |
| `Enrichment.ResolveUsesScopeOnly` | apps/operations/listing_enrichment.py:178-190 | The resolution depends only on the set of listings of the row's store and marketplace |
| `Enrichment.RejectedIff` | apps/operations/listing_enrichment.py:108-131 | Exactly which rows get no lookup and why, by store, marketplace, mode, module, step and reason |
| `Enrichment.CandidateIff` | apps/operations/listing_enrichment.py:135-162 | A listing is a candidate exactly if it is in scope and its trimmed id, article or one of two external ids of its marketplace is the trimmed reference, and by those keys |
| `Enrichment.MatchedIffNamed` | apps/operations/listing_enrichment.py:192-221 | A row finds a listing exactly if it is about a product of WB or Ozon and its reference names that listing alone, the linked one if it has a link; the key reported is the first by name |
| `Enrichment.ConflictIff` | apps/operations/listing_enrichment.py:205-216 | Why an unlinked row finds none: it names no listing, or two by one field, or several by different fields |
| `Common.StripIff` | apps/operations/listing_enrichment.py:143-161 | A string trims to a core exactly when it is that core with blanks around it and none at its ends |
| `Enrichment.MatchIff` | apps/operations/listing_enrichment.py:192-221 | An unlinked row matches exactly with one candidate, a linked row exactly when its link is the sole candidate |
| `Enrichment.AmbiguityBound` | apps/operations/listing_enrichment.py:205-216 | Multiple matches without a duplicated key happen only with 2 to 4 candidates |
| `Enrichment.DisjointKeys` | apps/operations/listing_enrichment.py:35-36 | Pigeonhole: candidates sharing no key are at most as many as the keys |
| `Enrichment.SharedIffCounted` | apps/operations/listing_enrichment.py:178-216 | Some key is counted twice exactly when two candidates share a key |
| `Enrichment.CollectCandidates` | apps/operations/listing_enrichment.py:178-190 | The scan, in any order, collects the candidates and counts their keys |
| `Enrichment.ResolveListing` | apps/operations/listing_enrichment.py:164-221 | The loop computes the resolution, whatever the order of the scan |
| `Backfill.LinkingSettles` | apps/operations/listing_enrichment.py:249-306 | Linking keeps everything else, never replaces a link, and makes the next verdict idempotent |
| `BackfillContracts.EnrichesIff` | apps/operations/listing_enrichment.py:249-306 | A row is linked exactly if it has no link, is about a product, and its reference names that listing alone |
| `BackfillContracts.AlreadyLinkedIff` | apps/operations/listing_enrichment.py:192-203 | It counts as linked already exactly if its reference still names its listing alone |
| `BackfillContracts.LinkedConflictIff` | apps/operations/listing_enrichment.py:192-203 | And else, once linked, as a conflict of several matches |
| `BackfillContracts.SkippedIff` | apps/operations/listing_enrichment.py:164-216 | Which rows are skipped for which conflict |
| `BackfillContracts.OutcomesCounted` | apps/operations/listing_enrichment.py:358-372 | The report's totals are the numbers of rows of each outcome |
| `BackfillContracts.ConflictsCounted` | apps/operations/listing_enrichment.py:358-372 | Its count of a conflict is the number of rows skipped for it |
| `BackfillContracts.FamiliesCounted` | apps/operations/listing_enrichment.py:358-372 | The same by family |
| `BackfillContracts.NoViolationsIff` | apps/operations/listing_enrichment.py:323-328 | No scope violation is counted exactly if every linked row has a listing of its store and marketplace |
| `BackfillContracts.NoChangesIff` | apps/operations/listing_enrichment.py:309-320 | No reference is reported as changed exactly if every row is still there with its reference |
| `Backfill.TallyConserves` | apps/operations/listing_enrichment.py:358-372 | Scanned is enriched plus idempotent plus skipped, and each conflict and family count adds up |
| `Backfill.SecondBackfill` | apps/operations/listing_enrichment.py:331-392 | A second backfill over the same range selects the same rows, enriches none, finds idempotent what the first enriched, reports all else alike and changes no row |
| `Backfill.SecondRun` | apps/operations/listing_enrichment.py:331-392 | The same tally for any enrichment whose verdict settles once linked |
| `Backfill.SecondRunChangesNothing` | apps/operations/listing_enrichment.py:331-392 | A second write run changes no row |
| `Backfill.AdjacentBackfillsAdd` | apps/operations/listing_enrichment.py:349-372 | Unlimited runs over adjacent id ranges report and write what one run over the union does |
| `Backfill.LimitCutsTail` | apps/operations/listing_enrichment.py:349-356 | A limited run looks at the first rows of the unlimited one |
| `Backfill.EnrichAllFrame` | apps/operations/listing_enrichment.py:309-328 | No product reference and no set link changes, and scope violations stay as many |
| `Backfill.DetailRowTable.Enrich` | apps/operations/listing_enrichment.py:249-306 | Writes the link unless the stored row has one by now, and reports accordingly |
| `Backfill.DetailRowTable.Scan` | apps/operations/listing_enrichment.py:358-372 | The loop's tally is a function of the rows before it, the same for a dry run |
| `Backfill.DetailRowTable.Backfill` | apps/operations/listing_enrichment.py:331-392 | A dry run reports what the write run does; an empty table raises |
| `Snapshots.NewestFirstMeaning` | apps/product_core/services.py:151-155 | The ordered query lists exactly a listing's snapshots, newest first |
| `Snapshots.LatestMeaning` | apps/product_core/services.py:151-155 | The latest snapshot is the greatest by timestamp, then id |
| `SyncContracts.NewestFirstByFields` | apps/product_core/services.py:151-155 | The query's order by timestamp, then id, on the stored fields |
| `SyncContracts.PriceCells` | apps/product_core/services.py:166-184 | Which cells of the cache a price snapshot sets, and to what |
| `SyncContracts.StockCells` | apps/product_core/services.py:187-194 | The same for a stock snapshot |
| `SyncContracts.SalesCells` | apps/product_core/services.py:197-209 | The same for a sales snapshot |
| `SyncContracts.OverlayPromotions` | apps/product_core/services.py:212-222 | The cached promotions are all of the listing's, newest first |
| `SyncContracts.OverlayByKind` | apps/product_core/services.py:224-263 | Each cell comes from the latest snapshot of its kind and no other |
| `Snapshots.LatestByListing` | apps/product_core/services.py:151-155 | Keeping the first snapshot met per listing gives the latest ones |
| `Snapshots.GroupByListing` | apps/product_core/services.py:231-240 | Grouping keeps the query order per listing |
| `Snapshots.OverlayKeepsOlderDiscount` | apps/product_core/services.py:166-184 | The cache is an overlay: a price without a discount leaves an older discount |
| `SyncRuns.RunKeepsInv` | apps/product_core/services.py:314-455 | At most one active run per marketplace, store and type, snapshots within their run's scope, each completed run logged once, unique listings |
| `SyncRuns.AtMostOneActive` | apps/product_core/services.py:314-352 | At most one run of a marketplace, store and type is active in any reachable state |
| `SyncRuns.CacheIsFoldOfCompletions` | apps/product_core/services.py:224-311 | In every reachable state a listing's cached values, last run and last success are the fold over completed runs, and its last run is a completed one |
| `SyncRuns.OnlyCompletionMovesCache` | apps/product_core/services.py:406-455 | Failures, attachments, starts and upserts move no cache |
| `SyncRuns.FirstSeenIsFixed` | apps/product_core/services.py:266-276 | A listing is first seen once, and its last times move together and never before it |
| `SyncRuns.AttachKeepsMatchIff` | apps/product_core/services.py:504-508 | An accepted attachment keeps stored and applied snapshots equal exactly when the stored run is not completed |
| `SyncRuns.OtherStepsKeepMatch` | apps/product_core/services.py:314-455 | No other step parts them |
| `SyncRuns.StaleHandleExample` | apps/product_core/services.py:504-508 | Attaching through the run object a start returned succeeds after the run has completed |
| `SyncRuns.MergeValues` | apps/product_core/services.py:248-260 | Merging the four kinds in turn is the overlay |
| `SyncRuns.SyncTables.StartRun` | apps/product_core/services.py:314-368 | Starts a run or raises for a second active one or another marketplace |
| `SyncContracts.StartMeaning` | apps/product_core/services.py:314-368 | When a run starts, by the stored runs, and the whole new state |
| `SyncContracts.AttachMeaning` | apps/product_core/services.py:504-551 | When a snapshot is attached, and the row it adds |
| `SyncContracts.CompleteMeaning` | apps/product_core/services.py:371-403 | When a run completes, and which listings get which cache, last run and last success |
| `SyncContracts.FailMeaning` | apps/product_core/services.py:406-455 | When a run fails, and what that writes |
| `SyncContracts.UpsertMeaning` | apps/product_core/services.py:1308-1350 | Which listing an upsert writes, and every field of it |
| `SyncRuns.SyncTables.AttachSnapshot` | apps/product_core/services.py:504-551 | Attaches to the run, checking the caller's run object |
| `SyncRuns.SyncTables.ApplyCache` | apps/product_core/services.py:224-311 | The loop refreshes exactly the listings with a snapshot and counts them |
| `SyncRuns.SyncTables.CompleteRun` | apps/product_core/services.py:371-403 | Completes, applies the cache and returns how many listings it refreshed |
| `SyncRuns.SyncTables.FailRun` | apps/product_core/services.py:406-455 | Fails an active run with a failure status |
| `SyncRuns.SyncTables.UpsertListing` | apps/product_core/services.py:1308-1350 | Updates or creates the listing of the run's store with that external id |
| `SyncAdapters.DetectDuplicateArticles` | apps/product_core/services.py:1257-1263 | The counting loop finds exactly the non-blank articles that occur twice |
| `SyncAdapters.ProcessedArticlesDistinct` | apps/product_core/services.py:1257-1263 | Rows outside the duplicates have pairwise distinct non-blank articles |
| `SyncAdapters.RowSkippedIff` | apps/product_core/services.py:1441-1480 | For each adapter: a row that raises nothing is skipped exactly if its id is blank, an id or stock the adapter needs is missing, its article is another row's too, or a promotion row does not point to exactly one listing |
| `SyncAdapters.PointsToOneIff` | apps/product_core/services.py:1353-1379 | Which listings a promotion row may mean, and when there is exactly one |
| `SyncContracts.AffectedMeaning` | apps/product_core/services.py:1266-1306 | The rows counted as affected by a duplicate are those whose non-blank article another row has too |
| `SyncAdapters.RowsConserve` | apps/product_core/services.py:1439-1505 | Rows are processed or skipped, duplicate-affected rows are skipped ones, and warnings are skipped rows plus processed ones without a snapshot |
| `SyncAdapters.SyncSettlesItsRun` | apps/product_core/services.py:1428-1517 | A started run is completed on return, with warnings exactly when some were counted, and failed on a raise; nothing else completes |
| `SyncAdapters.CleanSyncReturns` | apps/product_core/services.py:1441-1505 | A sync none of whose rows raises returns |
| `SyncAdapters.WriteRow` | apps/product_core/services.py:1600-1642 | One row of any of the four loops, as specified |
| `SyncAdapters.WriteRows` | apps/product_core/services.py:1921-1968 | The loop stops at the first row that raises |
| `SyncAdapters.Sync` | apps/product_core/services.py:1766-1887 | The whole adapter, its report adding up |
| `SyncCaches.NewestIsReversed` | apps/product_core/services.py:151-155 | The query lists snapshots stamped as they are written in the reverse of that order |
| `SyncCaches.SyncCachesRows` | apps/product_core/services.py:1418-1517 | For each of the four adapters: a sync that returns overlays each listing of its store with the last price or stock, or all promotions, that rows about it give, stamped within the run, and leaves the cache of every other listing; which rows those are is said by their fields |
| `SyncCaches.SyncCachesKeys` | apps/product_core/services.py:157-222 | The same key by key: price, currency, discount and percentage, the stock quantities, or the promotions with the latest first; an absent discount and all other keys keep what was cached |
| `SyncCaches.EveryRowLands` | apps/product_core/services.py:1308-1350 | Each row of an upserting adapter with an id, with the stock the adapter needs, and with an article no other row has, has exactly one listing of that id when the sync returns |
| `LinkedSync.LinkedSyncRefines` | apps/product_core/services.py:1457-1463 | A sync with its linkage does to the sync tables what the sync alone does with rows that carry the outcome of their linkage |
| `LinkedSync.LinkedSyncKeeps` | apps/product_core/services.py:1457-1463 | However it ends, a sync keeps the mapping history faithful and counts as mapped exactly the history rows its linkages added |
| `LinkedSync.ReturnedSyncSettles` | apps/product_core/services.py:1104-1220 | When a sync returns, each listing such a row means, if its article is a valid SKU, is matched to a live variant of that SKU or in conflict |
| `LinkedSync.JointRunStaysTogether` | apps/product_core/services.py:1104-1220 | Over every run of syncs, mapping changes through up-to-date objects and other steps, the mapping history replays |
| `LinkedSync.OrderlyIff` | apps/product_core/services.py:1104-1220 | Such runs are those each of whose requests brings its rows and each of whose mapping changes has an up-to-date object |
| `LinkedSync.JointStepMeaning` | apps/product_core/services.py:1418-1517 | What each step of such a run acts on |
| `LinkedSync.WriteLinkedRow` | apps/product_core/services.py:1444-1480 | One row with its linkage, on both tables, as specified |
| `LinkedSync.WriteLinkedRows` | apps/product_core/services.py:1444-1480 | The loop over both tables stops at the first row that raises |
| `LinkedSync.SyncAndLink` | apps/product_core/services.py:1418-1517 | The whole adapter with its linkage |
| `Mapping.RunKeepsInv` | apps/product_core/models.py:199-238 | In every reachable state product codes and non-blank SKUs are unique, and a matched listing has a variant |
| `Mapping.HistoryReplays` | apps/product_core/services.py:780-877 | Over runs with up-to-date listing objects, replaying the history gives the stored variant and status, and previous variants chain |
| `Mapping.FreshRunIff` | apps/product_core/services.py:780-877 | Such runs are those at each of whose commands the object given shows the stored variant |
| `MappingContracts.FreshMeaning` | apps/product_core/services.py:2189-2282 | Which objects are up to date, by their variant |
| `Mapping.ChangeKeepsReplayIff` | apps/product_core/services.py:2189-2260 | A manual change keeps replay exactly when it sets the variant itself or the caller's object has the stored variant |
| `Mapping.StaleMarkerUnmaps` | apps/product_core/services.py:2189-2260 | A marker through an object read before the mapping unmaps the listing without a trace |
| `Mapping.OtherStepsKeepMappings` | apps/product_core/services.py:1308-1350 | Listing upserts and catalogue edits leave mappings and histories alone |
| `Mapping.RefreshOnlyFlags` | apps/product_core/services.py:2141-2186 | A candidate refresh never matches or assigns, and repeating it changes nothing |
| `Mapping.ApiLinkOutcome` | apps/product_core/services.py:1104-1220 | When linking by a valid SKU raises, ends in conflict with the variant untouched, or ends matched to a live variant of a live product; it creates at most one product and one variant |
| `Mapping.ApiLinkRepointsIff` | apps/product_core/services.py:1111-1184 | It replaces a stored variant exactly when linking is safe for the caller's object and that variant does not hold the SKU, and never while the object has the stored variant |
| `Mapping.ApiLinkReplays` | apps/product_core/services.py:1171-1220 | It always keeps replay, even through an outdated object |
| `Mapping.StaleLinkRepoints` | apps/product_core/services.py:1111-1184 | Linking by an accepted article through an object read before a manual mapping moves the listing to the other variant |
| `Mapping.StaleLinkExample` | apps/product_core/services.py:1111-1184 | A run to such a state, with two accepted SKUs |
| `Mapping.LongSkuRaises` | apps/product_core/models.py:82 | Linking an unmapped listing raises when its article is a valid SKU that nobody holds and that is longer than a product code |
| `Mapping.LongArticleExample` | apps/product_core/models.py:82 | A new listing with an accepted article of 65 characters, whose linkage raises |
| `Mapping.LaterConflictsUnreachable` | apps/product_core/services.py:1171-1184 | Uniqueness rules out several holders and a holder other than the listing's own |
| `Mapping.MappingTables.LinkListingBySku` | apps/product_core/services.py:1104-1220 | The branches of the linkage, with nothing written when it raises |
| `MappingContracts.LinkMeaning` | apps/product_core/services.py:1104-1220 | By the stored variants, products and titles: when linking raises, flags a conflict, matches the holder of the SKU, or makes a draft of a new or existing product and matches it, with every field it writes |
| `MappingContracts.UnsafeIff` | apps/product_core/services.py:1111-1184 | Which listings and variants make linking unsafe |
| `MappingContracts.ChangeMeaning` | apps/product_core/services.py:2189-2282 | When a manual change is accepted, and the mapping and history row it writes |
| `MappingContracts.RefreshMeaning` | apps/product_core/services.py:2141-2186 | What a candidate refresh writes, by the number of candidates |
| `MappingContracts.AddVariantMeaning` | apps/product_core/models.py:199-238 | When a variant is taken, by product, SKU and name |
| `Mapping.MappingTables.ApiLinkListing` | apps/product_core/services.py:1104-1220 | Reads the article as a SKU and links by it |
| `Mapping.MappingTables.CreateDraft` | apps/product_core/services.py:912-1015 | Creates the missing product and the draft variant, or nothing |
| `Mapping.MappingTables.LinkListing` | apps/product_core/services.py:1166-1220 | Matches the listing, records it, and flags the variant on a differing title |
| `Mapping.MappingTables.RecordMappingChange` | apps/product_core/services.py:2189-2282 | Writes mapping and history row together, or nothing |
| `Mapping.MappingTables.RefreshCandidateStatus` | apps/product_core/services.py:2141-2186 | Flags the listing by the number of candidate variants |
| `Sku.SkuRoundTrip` | apps/product_core/services.py:724-746 | For every accepted SKU, joining the traits read from it gives it back |
| `Sku.DistinctTraitsDistinctSkus` | apps/product_core/services.py:724-746 | Different traits render to different SKUs |
| `Sku.AcceptsIffMatches` | apps/product_core/models.py:15-31 | Validity of the traits decides the pattern |
| `Sku.ApiSkuIff` | apps/product_core/services.py:713-721 | An article is read as a SKU exactly when it is that SKU between blanks and the pattern matches it |
| `Sku.PatternElim` | apps/product_core/models.py:15-18 | Every string of the pattern is the rendering of valid traits |
| `Sku.PatternIntro` | apps/product_core/models.py:15-18 | Every rendering of valid traits is in the pattern |
| `Sku.ArticleTraits` | apps/product_core/services.py:724-746 | The token loop computes the traits |
| `Sku.LongSkuHasLongKit` | apps/product_core/models.py:82 | Only a kit number of more than 37 digits makes a SKU too long for a product code |
| `Sku.LongSkuExists` | apps/product_core/models.py:15-18 | Accepted SKUs have no greatest length: one with a kit number of any length |
| `Decimals.RoundTripValue` | apps/discounts/ozon_shared/calculation.py:43-59 | Parsing the fixed-point print of any finite decimal gives an equal number |
| `Decimals.RoundTripExact` | apps/discounts/ozon_shared/calculation.py:43-59 | The representation survives exactly when the exponent is not positive |
| `Decimals.PrintInjective` | apps/discounts/ozon_shared/calculation.py:43-44 | Numbers that print alike are equal |
| `Decimals.ValueLaws` | apps/discounts/ozon_shared/calculation.py:43-59 | The value of a decimal by its laws: its coefficient, ten times as much per power of ten, the opposite with a sign |
| `Decimals.SpacesIgnored` | apps/discounts/ozon_shared/calculation.py:47-59 | The parser ignores grouping spaces |
| `Decimals.NoBreakSpacesIgnored` | apps/discounts/ozon_shared/calculation.py:47-59 | And no-break spaces |
| `Decimals.CommaIsPoint` | apps/discounts/ozon_shared/calculation.py:52 | A decimal comma reads as a point, wherever it stands |
| `Decimals.PointedMeaning` | apps/discounts/ozon_shared/calculation.py:47-59 | A sign, digits, a comma or a point and decimals read as the digits together with as many places |
| `Decimals.ExponentShifts` | apps/discounts/ozon_shared/calculation.py:47-59 | An exponent shifts the places of what the mantissa reads as |
| `OzonElastic.DecisionMeaning` | apps/discounts/ozon_shared/calculation.py:84-128 | With a positive stock, a row participates iff J <= max(O, P) at price max(J, P); with only P iff J <= P at price P; with only O never |
| `OzonElastic.DecisionNeedsPriceAndStock` | apps/discounts/ozon_shared/calculation.py:84-128 | Participation needs a minimum price, a positive stock and a price of at least the minimum |
| `OzonElastic.ReasonIff` | apps/discounts/ozon_shared/calculation.py:84-128 | Each of the seven reasons by its own condition on J, O, P and stock, free of the order of the rules |
| `OzonElastic.DecisionByValues` | apps/discounts/ozon_shared/calculation.py:74-81 | Price and problem field by the same conditions |
| `OzonElastic.RowMeaning` | apps/discounts/ozon_api/calculation.py:192-245 | A calculated row carries the source's numbers each in its field, the reason that applies and its price, and is deactivated for that reason |
| `OzonElastic.PlanByReason` | apps/discounts/ozon_api/calculation.py:178-189 | Which plan a row gets, by source group and reason |
| `OzonElastic.DetailMeaning` | apps/discounts/ozon_api/calculation.py:353-375 | What a persisted detail row says, by the values of its source row |
| `OzonElastic.RecomputedDecisionAgrees` | apps/discounts/ozon_api/calculation.py:353-375 | The decision recomputed from printed fields has the reason, problem field and price of the original |
| `OzonElastic.PlanMeaning` | apps/discounts/ozon_api/calculation.py:178-245 | Add and update mean upload-ready at a price of at least J, blocked means an unknown source group |
| `OzonElastic.GroupsPartition` | apps/discounts/ozon_api/calculation.py:259-269 | The groups share the rows out, none lost or doubled |
| `OzonElastic.GroupMembers` | apps/discounts/ozon_api/calculation.py:259-269 | A row is in a group exactly when it has that plan |
| `OzonElastic.CalculateRows` | apps/discounts/ozon_api/calculation.py:248-256 | One calculated row per source row, in order |
| `OzonElastic.SummaryGroups` | apps/discounts/ozon_api/calculation.py:259-269 | The loop groups the rows in order |
| `OzonElastic.DetailsFaithful` | apps/discounts/ozon_api/calculation.py:353-375 | The persisted details report the original decisions |
| `OzonElastic.PersistDetails` | apps/discounts/ozon_api/calculation.py:353-375 | The loop writes those details |
| `OzonElastic.BlockedIffUnknownGroup` | apps/discounts/ozon_api/calculation.py:61-67 | No row is blocked exactly when every source group is known |
| `OzonReview.RunKeepsInv` | apps/discounts/ozon_api/review.py:188-338 | Accepted snapshots equal the calculated rows, and staleness marks exactly the outdated results, but for revived ones |
| `OzonReview.UploadAllowedMeaning` | apps/discounts/ozon_api/review.py:188-195 | An upload-allowed result has the rows fixed at calculation, none blocked, and every deactivation confirmed |
| `OzonReview.UploadAllowedIsFreshUnlessRevived` | apps/discounts/ozon_api/review.py:305-338 | It was accepted after the last refresh of its sources exactly when it was not revived |
| `OzonReview.CalculatedPartFrozen` | apps/discounts/ozon_api/review.py:83-89 | Review never changes the calculated part of a result |
| `OzonReview.DeclinedAbsorbing` | apps/discounts/ozon_api/review.py:266-302 | Declined stays declined over every continuation |
| `OzonReview.StaleStepIff` | apps/discounts/ozon_api/upload.py:161-209 | A stale result stays stale exactly unless a deactivation is confirmed on one that has some |
| `OzonReview.StaleCanBeRevived` | apps/discounts/ozon_api/upload.py:161-209 | In every reachable state such a confirmation makes an outdated result upload-allowed again |
| `OzonReview.RevivalExample` | apps/discounts/ozon_api/upload.py:161-209 | A concrete run to such a state |
| `OzonReview.ReacceptKeepsSnapshot` | apps/discounts/ozon_api/review.py:198-263 | Accepting again keeps the accepted snapshot and checksum |
| `OzonReview.RefreshMarksIff` | apps/discounts/ozon_api/review.py:305-338 | A refresh makes stale exactly the accepted and pending results of its store, and of its action if one is given, and changes nothing else |
| `OzonReview.CalculateMeaning` | apps/discounts/ozon_api/calculation.py:394-501 | The state a new result starts in, by its rows |
| `OzonReview.AcceptMeaning` | apps/discounts/ozon_api/review.py:198-263 | What acceptance writes, and when it changes nothing |
| `OzonReview.DeclineMeaning` | apps/discounts/ozon_api/review.py:266-302 | What declining writes, and when it changes nothing |
| `OzonReview.UploadAllowedIff` | apps/discounts/ozon_api/review.py:188-195 | In every reachable state an upload is allowed exactly for accepted results of a basis with a checksum |
| `OzonReview.ConfirmMeaning` | apps/discounts/ozon_api/upload.py:161-209 | What confirming deactivations writes in any reachable state |
| `OzonReview.UploadMeaning` | apps/discounts/ozon_api/upload.py:221-257 | Exactly which results pass the gate, and which are sent back to pending |
| `OzonReview.ReviewDesk.AcceptResult` | apps/discounts/ozon_api/review.py:198-263 | Accepts successful results that are neither declined nor stale |
| `OzonReview.ReviewDesk.DeclineResult` | apps/discounts/ozon_api/review.py:266-302 | Declines successful results that are not stale |
| `OzonReview.ReviewDesk.MarkAcceptedResultsStale` | apps/discounts/ozon_api/review.py:305-338 | Marks exactly the accepted and pending results of the store, and of the action if one is given, and counts them |
| `OzonReview.ReviewDesk.ConfirmDeactivateGroup` | apps/discounts/ozon_api/upload.py:161-209 | Confirms on the accepted snapshot, whatever the review state |
| `OzonReview.ReviewDesk.UploadResult` | apps/discounts/ozon_api/upload.py:221-233 | Passes exactly the results `UploadMeaning` describes |
| `Files.RunKeepsInv` | apps/files/services.py:152-211 | Paths and version numbers stay distinct, and storage matches the available versions |
| `Files.StorageMatchesMetadata` | apps/files/services.py:152-211 | In every reachable state storage holds exactly the paths of available versions and of those whose row was refused or rolled back, minus those lost; there are such and lost paths exactly if some step was a disturbing one |
| `Files.CreateKeepsStepIff` | apps/files/models.py:249-271 | A create keeps storage and available versions in step exactly when it is refused before the bytes are stored or its texts and number fit the columns of the version row |
| `FileContracts.AcceptsIff` | apps/files/services.py:135-150 | Which file object and texts a create is refused for before anything is stored |
| `FileContracts.RowFitsIff` | apps/files/models.py:249-271 | Which texts and numbers the version row takes |
| `FileContracts.CreatedMeaning` | apps/files/services.py:152-211 | The whole new state of a create, with the least number above those of the file |
| `FileContracts.DeletableIff` | apps/files/services.py:259-309 | Which versions can be deleted before use, by the links and dates of all versions of the file |
| `FileContracts.DeleteUploadMeaning` | apps/files/services.py:312-323 | What deleting an upload removes, from the tables and from storage |
| `FileContracts.DeleteVersionMeaning` | apps/files/services.py:325-337 | The same for one version |
| `FileContracts.QueueMeaning` | apps/files/services.py:339-377 | A cleanup takes the available versions that are due, earliest date first, up to its limit |
| `FileContracts.CleanupMeaning` | apps/files/services.py:339-377 | And what it writes for each |
| `FileContracts.DownloadStepMeaning` | apps/files/services.py:234-256 | When a download is served, refused, or finds the bytes missing |
| `Files.LongContentTypeOrphans` | apps/files/services.py:193-207 | A content type of 256 characters leaves the bytes of a new file behind without a row |
| `Files.LongNameOrphans` | apps/files/services.py:178-207 | So does a name of 256 characters for a further version, while a new file of that name is refused first |
| `Files.DownloadMeaning` | apps/files/services.py:234-256 | Through an up-to-date object a download serves exactly the unexpired, available and unlost versions of active files; a version deleted by retention becomes missing exactly when an older object still shows it and its date is not reached |
| `Files.RetiredStep` | apps/files/services.py:234-256 | Nothing else moves a version deleted by retention |
| `Files.RetiredByCleanup` | apps/files/services.py:339-377 | A version is deleted by retention only by a cleanup given a time at or after its retention date |
| `Files.RetiredForGood` | apps/files/services.py:234-256 | While times never go back, a version deleted by retention stays so, whatever objects callers hold |
| `FileContracts.ClockIsChronological` | apps/files/services.py:339-377 | Commands given the successive times of one clock are such, even while it stands still |
| `Files.EarlyCleanupExample` | apps/files/services.py:339-377 | A cleanup given a time ahead of the clock, after which a download through an older object records the version as missing |
| `Files.LinkedNeverDeleted` | apps/files/models.py:225-238 | A version linked as an operation input is never deleted |
| `Files.CreateMeaning` | apps/files/services.py:152-211 | A created version is available under a fresh path with a greater number than the others of its file |
| `Files.SecondCleanupScansNothing` | apps/files/services.py:339-377 | An unlimited cleanup leaves nothing for another at the same time |
| `Files.FileStore.CreateFileVersion` | apps/files/services.py:152-211 | Stores bytes and metadata, leaves the bytes alone behind when the database does not take the row, or raises for a file it does not fit |
| `Files.FileStore.DeletePreOperationVersions` | apps/files/services.py:259-309 | Deletes rows and bytes together when no version of the file was used, counting found and missing ones |
| `Files.FileStore.CleanupExpired` | apps/files/services.py:339-377 | Scanned is deleted plus missing, and a dry run predicts both |
| `Files.FileStore.OpenForDownload` | apps/files/services.py:234-256 | Serves exactly what the caller's object and the storage allow, and records an absent version as missing |
| `LinkedFiles.HeldVersionsStay` | apps/operations/models.py:744-757 | Over every run of operation and file services each version an operation has as input, output or result stays in the file table, in the operation's scope, and no deletion of its file does anything |
| `LinkedFiles.JointRunIsSound` | apps/operations/models.py:744-757 | Over every such run all invariants of operations and files hold together |
| `LinkedFiles.OperateMeaning` | apps/operations/models.py:744-757 | A step of an operation acts on the file table as it is then, and sets both references of exactly the versions it links |
| `LinkedFiles.LinksIff` | apps/operations/models.py:744-757 | Which versions those are: of the inputs, the output, or the one given |
| `LinkedFiles.LookingMeaning` | apps/operations/models.py:733-742 | The scope of a version is the store, module and marketplace of its file |
| `LinkedFiles.HeldExample` | apps/operations/models.py:744-757 | A run in which a deletable upload becomes the input of a check, after which its deletion does nothing |

## Left out

- Row locks, isolation and true concurrency: steps are sequential. A row read before a step and used after it is
  modelled where the code does so (`handle` and `seen` in `Mapping`, `handleStatus` in `SyncRuns`, `seen` in
  `OperationSteps`, `Files` and `Backfill`).
- A basis held by a caller: creating a process takes the stored check. Its status is final, so an object that shows a
  successful check agrees with the row, and an older one only makes the code refuse more.
- SQL collation: strings are ordered by code point. Timestamps are a counter that grows with every step, so creation
  order is id order; the file services are given their times, in any order.
- Hashes, uuids and clocks: paths are fresh numbers, checksums given strings or the hashed sequence itself.
- Permissions are a Boolean given to a step; audit and technical log records, secret detection and redaction are left
  out, except that a row of a sync may raise where they would.
- HTTP clients, Excel and CSV, views, forms, migrations; the Excel and WB calculations are arbitrary executors.
- JSON values of parameters are given as their compact text; a value whose stored form prints differently from the
  requested one is not modelled. Offsets of dates are whole seconds, and no date is within a day of the ends of the
  calendar.
- Decimal text with digits other than ASCII, and exponents beyond the limits of Python's decimal context.
- The regular expression is matched as a whole string with ASCII digits.
- Cached decimals are given in the form they are printed in; source rows of calculations carry only the fields the
  decision and the upload read.
- OperationInvariants.EveryProcessIsBased: over step sequences each of which keeps the bases; `StepKeepsBasedIff` says
  exactly which steps those are.
- SyncAdapters.Sync: the four adapters are one parameterised loop; whether linking a row's article recorded a mapping
  is given with the row here and decided by the mapping tables in `LinkedSync`. Where normalising, audit records or
  logs raise is given in both.
- Files.FileStore.CreateFileVersion: the base name of the upload is given; checksums, sizes and visible file ids are
  not modelled. Text columns are those of PostgreSQL, which drops spaces beyond their length.
- Exceptions that are not `Exception` (interpreter exit, keyboard interrupt) leave an operation or sync run running.
- The upload of an accepted Elastic result beyond its gate, drift checks and batching.
- Legacy product synchronisation, store and parameter services, which add no state machine of their own.
