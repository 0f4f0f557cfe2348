/** The four loops that write marketplace rows into listings and snapshots under one sync run. */
module SyncAdapters {
  import opened Common
  import opened OperationTypes
  import opened Snapshots
  import opened SyncRuns

  datatype Adapter = WbPrices | WbPromotions | OzonActions | OzonStocks

  /** Where a row makes the code it calls raise. */
  datatype Fault = NoFault | AtUpsert | AtLink | AtSnapshot

  /** A normalised row; `linked` tells whether linking its article recorded a mapping. */
  datatype Row = Row(externalId: string, ids: ExternalIds, article: string, promotionId: string,
                     price: Option<PriceBody>,
                     promotion: PromotionBody, stock: Option<StockBody>, linked: bool, fault: Fault)

  /** `rows` is absent when normalising them raises; `closingRaises` when the steps after the last row do,
      or the completion of an automatic promotion. */
  datatype Request = Request(adapter: Adapter, store: nat, storeMarketplace: Marketplace, source: nat,
                             rows: Option<seq<Row>>,
                             autoPromotion: bool, groupKnown: bool, closingRaises: bool)

  datatype Tally = Tally(listings: nat, mapped: nat, snapshots: nat, skipped: nat, missing: nat, warnings: nat)

  const NOTHING := Tally(0, 0, 0, 0, 0, 0)

  /** Where a loop stands: the tables, its counters, and whether a row has raised. */
  datatype Outcome = Outcome(state: State, tally: Tally, raised: bool)

  datatype Report = Report(run: nat, rows: nat, tally: Tally, duplicates: nat, affected: nat)

  function KeyOf(a: Adapter, store: nat): SyncKey {
    match a
    case WbPrices => SyncKey(Wb, store, Prices)
    case WbPromotions => SyncKey(Wb, store, PromotionRows)
    case OzonActions => SyncKey(Ozon, store, PromotionRows)
    case OzonStocks => SyncKey(Ozon, store, Stocks)
  }

  /** What a row's snapshot holds; it is stamped with the time it is written at. */
  function Payload(a: Adapter, row: Row, now: nat): Option<Snapshot> {
    match a
    case WbPrices => if row.price.Some? then Some(PriceSnapshot(row.price.value, now)) else None
    case OzonStocks => if row.stock.Some? then Some(StockSnapshot(row.stock.value, now)) else None
    case _ => Some(PromotionSnapshot(row.promotion))
  }

  // ---------- duplicate articles ----------

  function Times(rows: seq<Row>, article: string): nat {
    if rows == [] then 0
    else Times(rows[..|rows| - 1], article) + if rows[|rows| - 1].article == article then 1 else 0
  }

  function Articles(rows: seq<Row>): set<string> { set i | 0 <= i < |rows| :: rows[i].article }

  /** The non-blank articles that occur in more than one row. */
  function Duplicates(rows: seq<Row>): set<string> { set x | x in Articles(rows) && x != "" && Times(rows, x) > 1 }

  lemma {:induction false} TimesOfPair(rows: seq<Row>, i: nat, j: nat)
    requires i < j < |rows| && rows[i].article == rows[j].article
    ensures Times(rows, rows[i].article) > 1
  {
    var most := rows[..|rows| - 1];
    if j < |most| {
      TimesOfPair(most, i, j);
    } else {
      TimesOfMember(most, i);
    }
  }

  lemma {:induction false} TimesOfMember(rows: seq<Row>, i: nat)
    requires i < |rows|
    ensures Times(rows, rows[i].article) > 0
  {
    if i < |rows| - 1 { TimesOfMember(rows[..|rows| - 1], i); }
  }

  /** Two rows that keep clear of the duplicates cannot share a non-blank article. */
  lemma ProcessedArticlesDistinct(rows: seq<Row>, i: nat, j: nat)
    requires i < j < |rows| && rows[i].article != ""
    requires rows[i].article !in Duplicates(rows) || rows[j].article !in Duplicates(rows)
    ensures rows[i].article != rows[j].article
  {
    assert rows[i].article in Articles(rows);
    if rows[i].article == rows[j].article { TimesOfPair(rows, i, j); }
  }

  ghost predicate Counted(counts: map<string, nat>, rows: seq<Row>) {
    && (forall x :: x in counts <==> x in Articles(rows) && x != "")
    && forall x :: x in counts ==> counts[x] == Times(rows, x)
  }

  lemma CountedNext(counts: map<string, nat>, rows: seq<Row>, row: Row)
    requires Counted(counts, rows)
    ensures Counted(if row.article == "" then counts
                    else counts[row.article := (if row.article in counts then counts[row.article] else 0) + 1], rows
                      + [row])
  {
    var t := rows + [row];
    assert t[..|rows|] == rows;
    assert Articles(t) == Articles(rows) + {row.article} by {
      assert forall i :: 0 <= i < |rows| ==> t[i] == rows[i];
      assert t[|rows|] == row;
    }
    if row.article !in Articles(rows) { TimesOfAbsent(rows, row.article); }
  }

  lemma {:induction false} TimesOfAbsent(rows: seq<Row>, article: string)
    requires article !in Articles(rows)
    ensures Times(rows, article) == 0
  {
    if rows != [] {
      assert rows[|rows| - 1].article in Articles(rows);
      assert Articles(rows[..|rows| - 1]) <= Articles(rows) by {
        assert forall i :: 0 <= i < |rows| - 1 ==> rows[..|rows| - 1][i] == rows[i];
      }
      TimesOfAbsent(rows[..|rows| - 1], article);
    }
  }

  method DetectDuplicateArticles(rows: seq<Row>) returns (duplicates: set<string>)
    ensures duplicates == Duplicates(rows)
  {
    var counts: map<string, nat> := map[];
    for n := 0 to |rows|
      invariant Counted(counts, rows[..n])
    {
      CountedNext(counts, rows[..n], rows[n]);
      assert rows[..n + 1] == rows[..n] + [rows[n]];
      var article := rows[n].article;
      if article != "" {
        counts := counts[article := (if article in counts then counts[article] else 0) + 1];
      }
    }
    assert rows[..|rows|] == rows;
    duplicates := set x | x in counts && counts[x] > 1;
  }

  // ---------- one row ----------

  predicate Unusable(a: Adapter, duplicates: set<string>, row: Row) {
    row.externalId == "" || (a.WbPromotions? && row.promotionId == "") || row.article in duplicates
    || (a.OzonStocks? && row.stock.None?)
  }

  /** The listings a promotion row may mean: by either id, or by its article when it has one. */
  function Existing(listings: map<nat, Listing>, key: SyncKey, row: Row): set<nat> {
    set l | l in listings && listings[l].store == key.store && listings[l].marketplace == key.marketplace
            && (listings[l].externalId == row.externalId || listings[l].ids.nmId == Some(row.externalId)
                || (row.article != "" && (listings[l].article == row.article
                                          || listings[l].ids.vendorCode == Some(row.article))))
  }

  function Skip(o: Outcome, missing: nat): Outcome {
    o.(tally := o.tally.(skipped := o.tally.skipped + 1, missing := o.tally.missing + missing,
                         warnings := o.tally.warnings + 1))
  }

  function Linked(o: Outcome, row: Row): Outcome {
    var t := o.tally.(listings := o.tally.listings + 1);
    if row.fault.AtLink? then Outcome(o.state, t, true)
    else o.(tally := t.(mapped := t.mapped + if row.linked then 1 else 0))
  }

  function Snapped(a: Adapter, run: nat, o: Outcome, listing: nat, row: Row): Outcome {
    var payload := Payload(a, row, o.state.clock);
    if o.raised then o
    else if payload.None? then o.(tally := o.tally.(warnings := o.tally.warnings + 1))
    else if row.fault.AtSnapshot? then o.(raised := true)
    else
      var state := Next(o.state, Attach(run, Running, listing, payload.value));
      if CanAttach(o.state, run, Running, listing) then
        o.(state := state, tally := o.tally.(snapshots := o.tally.snapshots + 1))
      else o.(state := state, raised := true)
  }

  function Recorded(a: Adapter, run: nat, o: Outcome, listing: nat, row: Row): Outcome {
    Snapped(a, run, Linked(o, row), listing, row)
  }

  function RowStep(a: Adapter, key: SyncKey, run: nat, duplicates: set<string>, o: Outcome, row: Row): Outcome {
    if o.raised then o
    else if Unusable(a, duplicates, row) then Skip(o, 0)
    else if a.WbPromotions? then
      var found := Existing(o.state.listings, key, row);
      if |found| != 1 then Skip(o, 1) else Recorded(a, run, o, Min(found), row)
    else if row.fault.AtUpsert? then o.(raised := true)
    else
      var state := Next(o.state, Upsert(run, row.externalId, row.ids, row.article));
      if Upserting(o.state, run, row.externalId, row.ids, row.article).Raised? then o.(state := state, raised := true)
      else Recorded(a, run, o.(state := state), Upserted(o.state, run, row.externalId), row)
  }

  function RowsOutcome(a: Adapter, key: SyncKey, run: nat, duplicates: set<string>, o: Outcome,
                       rows: seq<Row>): Outcome {
    if rows == [] then o
    else RowStep(a, key, run, duplicates, RowsOutcome(a, key, run, duplicates, o, rows[..|rows| - 1]), rows[|rows| - 1])
  }

  function Affected(rows: seq<Row>, duplicates: set<string>): nat {
    if rows == [] then 0
    else Affected(rows[..|rows| - 1], duplicates) + if rows[|rows| - 1].article in duplicates then 1 else 0
  }

  // ---------- which rows are processed, by their fields ----------

  /** The row has the ids its adapter needs and, for stocks, a stock, and shares no article with another row. */
  ghost predicate Usable(a: Adapter, rows: seq<Row>, i: nat)
    requires i < |rows|
  {
    && rows[i].externalId != "" && (a == WbPromotions ==> rows[i].promotionId != "")
    && (a == OzonStocks ==> rows[i].stock.Some?)
    && (rows[i].article == "" || forall j :: 0 <= j < |rows| && j != i ==> rows[j].article != rows[i].article)
  }

  lemma {:induction false} PairOfTimes(rows: seq<Row>, article: string) returns (i: nat, j: nat)
    requires Times(rows, article) > 1
    ensures i < j < |rows| && rows[i].article == rows[j].article == article
  {
    var most := rows[..|rows| - 1];
    if rows[|rows| - 1].article == article {
      j := |rows| - 1;
      i := SomeTime(most, article);
    } else {
      i, j := PairOfTimes(most, article);
    }
  }

  lemma {:induction false} SomeTime(rows: seq<Row>, article: string) returns (i: nat)
    requires Times(rows, article) > 0
    ensures i < |rows| && rows[i].article == article
  {
    i := |rows| - 1;
    if rows[i].article != article { i := SomeTime(rows[..i], article); }
  }

  lemma RepeatedIff(rows: seq<Row>, i: nat)
    requires i < |rows|
    ensures rows[i].article in Duplicates(rows) <==>
              rows[i].article != "" && exists j :: 0 <= j < |rows| && j != i && rows[j].article == rows[i].article
  {
    var x := rows[i].article;
    assert x in Articles(rows);
    if x != "" && Times(rows, x) > 1 {
      var m, n := PairOfTimes(rows, x);
      assert m != i || n != i;
    }
    if j :| 0 <= j < |rows| && j != i && rows[j].article == x {
      TimesOfPair(rows, if i < j then i else j, if i < j then j else i);
    }
  }

  lemma UsableIff(a: Adapter, rows: seq<Row>, i: nat)
    requires i < |rows|
    ensures Usable(a, rows, i) <==> !Unusable(a, Duplicates(rows), rows[i])
  {
    RepeatedIff(rows, i);
  }

  /** A listing of the run's store that a promotion row may mean: its id or nmID is the row's id, or its article or
      vendor code the row's article, if there is one. */
  ghost predicate PointsTo(l: Listing, key: SyncKey, row: Row) {
    && l.store == key.store && l.marketplace == key.marketplace
    && (l.externalId == row.externalId || l.ids.nmId == Some(row.externalId)
        || (row.article != "" && (l.article == row.article || l.ids.vendorCode == Some(row.article))))
  }

  /** Exactly one listing may be meant. */
  ghost predicate PointsToOne(listings: map<nat, Listing>, key: SyncKey, row: Row) {
    exists l :: OnlyPointed(listings, key, row, l)
  }

  ghost predicate OnlyPointed(listings: map<nat, Listing>, key: SyncKey, row: Row, l: nat) {
    l in listings && forall k :: k in listings ==> (PointsTo(listings[k], key, row) <==> k == l)
  }

  lemma OnlyPointedIff(listings: map<nat, Listing>, key: SyncKey, row: Row, l: nat)
    ensures OnlyPointed(listings, key, row, l) <==> Existing(listings, key, row) == {l}
  {
    forall k ensures k in Existing(listings, key, row) <==> k in listings && PointsTo(listings[k], key, row) {
    }
    if Existing(listings, key, row) == {l} { assert l in Existing(listings, key, row); }
  }

  lemma PointsToOneIff(listings: map<nat, Listing>, key: SyncKey, row: Row)
    ensures PointsToOne(listings, key, row) <==> |Existing(listings, key, row)| == 1
  {
    var found := Existing(listings, key, row);
    if |found| == 1 {
      var l := Min(found);
      assert |found - {l}| == 0;
      assert found == {l};
      OnlyPointedIff(listings, key, row, l);
    }
    if l :| OnlyPointed(listings, key, row, l) { OnlyPointedIff(listings, key, row, l); }
  }

  /** A row that raises nothing is skipped, with a warning, exactly when its id is blank, an id or stock its adapter
      needs is missing, its article is another row's too, or a promotion row does not point to exactly one listing;
      otherwise it is counted as a listing. */
  lemma RowSkippedIff(a: Adapter, key: SyncKey, run: nat, rows: seq<Row>, i: nat, o: Outcome)
    requires i < |rows| && !o.raised && !RowStep(a, key, run, Duplicates(rows), o, rows[i]).raised
    ensures var t := RowStep(a, key, run, Duplicates(rows), o, rows[i]).tally; var row := rows[i];
      var skipped := || row.externalId == "" || (a == WbPromotions && row.promotionId == "")
                     || (a == OzonStocks && row.stock.None?)
                     || (row.article != ""
                         && exists j :: 0 <= j < |rows| && j != i && rows[j].article == row.article)
                     || (a == WbPromotions && !PointsToOne(o.state.listings, key, row));
      && t.skipped == o.tally.skipped + (if skipped then 1 else 0)
      && t.listings == o.tally.listings + (if skipped then 0 else 1)
      && (skipped ==> t.warnings == o.tally.warnings + 1 && t.snapshots == o.tally.snapshots)
      && (skipped ==> t.missing == o.tally.missing + if Usable(a, rows, i) then 1 else 0)
  {
    UsableIff(a, rows, i);
    RepeatedIff(rows, i);
    PointsToOneIff(o.state.listings, key, rows[i]);
  }

  // ---------- the counters ----------

  ghost predicate Conserves(a: Adapter, n: nat, affected: nat, t: Tally) {
    && t.listings + t.skipped == n && affected <= t.skipped && t.missing <= t.skipped
    && t.mapped <= t.listings && t.snapshots <= t.listings
    && t.warnings == t.skipped + (t.listings - t.snapshots)
    && (!a.WbPrices? ==> t.snapshots == t.listings)
  }

  lemma RecordedConserves(a: Adapter, run: nat, o: Outcome, listing: nat, row: Row, n: nat, affected: nat)
    requires Conserves(a, n, affected, o.tally) && (a.OzonStocks? ==> row.stock.Some?)
    requires !Recorded(a, run, o, listing, row).raised
    ensures Conserves(a, n + 1, affected, Recorded(a, run, o, listing, row).tally)
  {
  }

  lemma RowConserves(a: Adapter, key: SyncKey, run: nat, duplicates: set<string>, o: Outcome, row: Row, n: nat,
                     affected: nat)
    requires Conserves(a, n, affected, o.tally) && !RowStep(a, key, run, duplicates, o, row).raised
    ensures Conserves(a, n + 1, affected + (if row.article in duplicates then 1 else 0),
                      RowStep(a, key, run, duplicates, o, row).tally)
    ensures !o.raised
  {
    if !Unusable(a, duplicates, row) {
      if a.WbPromotions? {
        var found := Existing(o.state.listings, key, row);
        if |found| == 1 { RecordedConserves(a, run, o, Min(found), row, n, affected); }
      } else if !o.raised {
        var state := Next(o.state, Upsert(run, row.externalId, row.ids, row.article));
        RecordedConserves(a, run, o.(state := state), Upserted(o.state, run, row.externalId), row, n, affected);
      }
    }
  }

  /** When no row raises, every row is either processed or skipped, all rows with a duplicated article are among the
      skipped ones, and the warnings are the skipped rows and the processed ones without a snapshot. */
  lemma {:induction false} RowsConserve(a: Adapter, key: SyncKey, run: nat, duplicates: set<string>, s: State,
                                        rows: seq<Row>)
    requires !RowsOutcome(a, key, run, duplicates, Outcome(s, NOTHING, false), rows).raised
    ensures Conserves(a, |rows|, Affected(rows, duplicates),
                      RowsOutcome(a, key, run, duplicates, Outcome(s, NOTHING, false), rows).tally)
  {
    if rows != [] {
      var most := rows[..|rows| - 1];
      var o := RowsOutcome(a, key, run, duplicates, Outcome(s, NOTHING, false), most);
      RowsConserve(a, key, run, duplicates, s, most);
      RowConserves(a, key, run, duplicates, o, rows[|rows| - 1], |most|, Affected(most, duplicates));
    }
  }

  // ---------- the tables while the rows are written ----------

  function Size(b: Batch): nat { |b.prices| + |b.stocks| + |b.sales| + |b.promotions| }

  /** The run is still running, nothing has completed meanwhile, and it holds `n` snapshots. */
  ghost predicate Working(s: State, key: SyncKey, run: nat, t: State, n: nat) {
    && Reachable(t) && t.runs == s.runs && t.log == s.log
    && run in t.runs && t.runs[run].key == key && t.runs[run].status == Running
    && run in t.batches && Size(t.batches[run]) == n
  }

  lemma AddedSize(b: Batch, id: nat, listing: nat, snapshot: Snapshot, now: nat)
    ensures Size(Added(b, id, listing, snapshot, now)) == Size(b) + 1
  {
  }

  lemma SnappedWorks(s: State, a: Adapter, key: SyncKey, run: nat, o: Outcome, listing: nat, row: Row)
    requires Working(s, key, run, o.state, o.tally.snapshots)
    requires InScope(o.state.listings, listing, key)
    ensures var r := Snapped(a, run, o, listing, row);
      Working(s, key, run, r.state, r.tally.snapshots) && (row.fault.NoFault? ==> r.raised == o.raised)
  {
    var payload := Payload(a, row, o.state.clock);
    if payload.Some? {
      ReachableNext(o.state, Attach(run, Running, listing, payload.value));
      AddedSize(o.state.batches[run], o.state.nextSnapshot, listing, payload.value, o.state.clock);
    }
  }

  lemma RecordedWorks(s: State, a: Adapter, key: SyncKey, run: nat, o: Outcome, listing: nat, row: Row)
    requires Working(s, key, run, o.state, o.tally.snapshots)
    requires InScope(o.state.listings, listing, key)
    ensures var r := Recorded(a, run, o, listing, row);
      Working(s, key, run, r.state, r.tally.snapshots) && (row.fault.NoFault? ==> r.raised == o.raised)
  {
    SnappedWorks(s, a, key, run, Linked(o, row), listing, row);
  }

  lemma UpsertWorks(s: State, key: SyncKey, run: nat, t: State, n: nat, row: Row)
    requires Working(s, key, run, t, n) && row.externalId != ""
    ensures var u := Next(t, Upsert(run, row.externalId, row.ids, row.article));
      Working(s, key, run, u, n) && InScope(u.listings, Upserted(t, run, row.externalId), key)
      && Upserting(t, run, row.externalId, row.ids, row.article).Ok?
  {
    ReachableNext(t, Upsert(run, row.externalId, row.ids, row.article));
  }

  lemma RowWorks(s: State, a: Adapter, key: SyncKey, run: nat, duplicates: set<string>, o: Outcome, row: Row)
    requires Working(s, key, run, o.state, o.tally.snapshots)
    ensures var r := RowStep(a, key, run, duplicates, o, row);
      Working(s, key, run, r.state, r.tally.snapshots) && (row.fault.NoFault? ==> r.raised == o.raised)
  {
    if o.raised || Unusable(a, duplicates, row) {
    } else if a.WbPromotions? {
      var found := Existing(o.state.listings, key, row);
      if |found| == 1 { RecordedWorks(s, a, key, run, o, Min(found), row); }
    } else if !row.fault.AtUpsert? {
      var state := Next(o.state, Upsert(run, row.externalId, row.ids, row.article));
      UpsertWorks(s, key, run, o.state, o.tally.snapshots, row);
      RecordedWorks(s, a, key, run, o.(state := state), Upserted(o.state, run, row.externalId), row);
    }
  }

  lemma {:induction false} RowsWork(s: State, a: Adapter, key: SyncKey, run: nat, duplicates: set<string>,
                                    rows: seq<Row>)
    requires Working(s, key, run, s, 0)
    ensures var r := RowsOutcome(a, key, run, duplicates, Outcome(s, NOTHING, false), rows);
      Working(s, key, run, r.state, r.tally.snapshots) && ((forall x :: x in rows ==> x.fault.NoFault?) ==> !r.raised)
  {
    if rows != [] {
      var most := rows[..|rows| - 1];
      RowsWork(s, a, key, run, duplicates, most);
      RowWorks(s, a, key, run, duplicates, RowsOutcome(a, key, run, duplicates, Outcome(s, NOTHING, false), most),
               rows[|rows| - 1]);
      assert forall x :: x in most ==> x in rows;
    }
  }

  // ---------- a whole sync ----------

  function Written(s: State, q: Request, run: nat, rows: seq<Row>): Outcome {
    RowsOutcome(q.adapter, KeyOf(q.adapter, q.store), run, Duplicates(rows), Outcome(s, NOTHING, false), rows)
  }

  /** The run's last step once it has started: completed with the warnings counted, or failed after a raise. */
  function Ended(s: State, q: Request, run: nat): State {
    if q.adapter.WbPromotions? && q.autoPromotion then
      Next(s, if q.closingRaises then Fail(run, InterruptedFailed) else Complete(run, 1))
    else if q.rows.None? then Next(s, Fail(run, InterruptedFailed))
    else
      var o := Written(s, q, run, q.rows.value);
      if o.raised || q.closingRaises then Next(o.state, Fail(run, InterruptedFailed))
      else Next(o.state, Complete(run, o.tally.warnings))
  }

  function StartOf(q: Request): Command { Start(KeyOf(q.adapter, q.store), q.storeMarketplace, q.source) }

  predicate Starts(s: State, q: Request) {
    (q.adapter.OzonActions? ==>
       q.groupKnown) && Starting(s, KeyOf(q.adapter, q.store), q.storeMarketplace, q.source).Ok?
  }

  function Synced(s: State, q: Request): State {
    if q.adapter.OzonActions? && !q.groupKnown then s
    else if !Starts(s, q) then Next(s, StartOf(q))
    else Ended(Next(s, StartOf(q)), q, s.nextRun)
  }

  predicate Returning(s: State, q: Request, run: nat) {
    !q.closingRaises
    && ((q.adapter.WbPromotions? && q.autoPromotion)
        || (q.rows.Some? && !Written(s, q, run, q.rows.value).raised))
  }

  function EndWarnings(s: State, q: Request, run: nat): nat
    requires Returning(s, q, run)
  {
    if q.adapter.WbPromotions? && q.autoPromotion then 1 else Written(s, q, run, q.rows.value).tally.warnings
  }

  /** Whether the sync returns its run instead of raising. */
  predicate Succeeds(s: State, q: Request) { Starts(s, q) && Returning(Next(s, StartOf(q)), q, s.nextRun) }

  function WarningsOf(s: State, q: Request): nat
    requires Succeeds(s, q)
  {
    EndWarnings(Next(s, StartOf(q)), q, s.nextRun)
  }

  /** The counters of a returned report add up; an auto promotion has no rows and one warning. */
  ghost predicate Honest(q: Request, r: Report) {
    if q.adapter.WbPromotions? && q.autoPromotion then r.rows == r.affected == 0 && r.tally == NOTHING.(warnings := 1)
    else q.rows.Some? && r.rows == |q.rows.value| && Conserves(q.adapter, r.rows, r.affected, r.tally)
         && r.duplicates == |Duplicates(q.rows.value)| && r.affected == Affected(q.rows.value, Duplicates(q.rows.value))
  }

  lemma StartedWorks(s: State, q: Request)
    requires Reachable(s) && Starts(s, q)
    ensures var t := Next(s, StartOf(q));
      Working(t, KeyOf(q.adapter, q.store), s.nextRun, t, 0) && t.log == s.log && t.listings == s.listings
      && t.runs == s.runs[s.nextRun := SyncRun(KeyOf(q.adapter, q.store), q.source, Running)]
  {
    ReachableNext(s, StartOf(q));
  }

  /** The state just before the run's last step. */
  function Prepared(s: State, q: Request, run: nat): State {
    if (q.adapter.WbPromotions? && q.autoPromotion) || q.rows.None? then s else Written(s, q, run, q.rows.value).state
  }

  function SnapshotsWritten(s: State, q: Request, run: nat): nat {
    if (q.adapter.WbPromotions? && q.autoPromotion) || q.rows.None? then 0
    else Written(s, q, run, q.rows.value).tally.snapshots
  }

  lemma PreparedWorks(s: State, q: Request)
    requires Reachable(s) && Starts(s, q)
    ensures var t := Next(s, StartOf(q));
      Working(t, KeyOf(q.adapter, q.store), s.nextRun, Prepared(t, q, s.nextRun), SnapshotsWritten(t, q, s.nextRun))
  {
    StartedWorks(s, q);
    if q.rows.Some? {
      RowsWork(Next(s, StartOf(q)), q.adapter, KeyOf(q.adapter, q.store), s.nextRun, Duplicates(q.rows.value),
               q.rows.value);
    }
  }

  lemma CompletedRun(s: State, run: nat, warnings: nat)
    requires Reachable(s) && run in s.runs && s.runs[run].status == Running && run in s.batches
    ensures var t := Next(s, Complete(run, warnings));
      && Reachable(t) && t.log == s.log + [Completion(run, s.clock, s.batches[run])]
      && t.runs == s.runs[run := s.runs[run].(status := if warnings > 0 then CompletedWithWarnings
                                              else CompletedSuccess)]
  {
    ReachableNext(s, Complete(run, warnings));
  }

  lemma FailedRun(s: State, run: nat)
    requires Reachable(s) && run in s.runs && s.runs[run].status == Running
    ensures var t := Next(s, Fail(run, InterruptedFailed));
      Reachable(t) && t.log == s.log && t.runs == s.runs[run := s.runs[run].(status := InterruptedFailed)]
  {
    ReachableNext(s, Fail(run, InterruptedFailed));
  }

  function EndStatus(s: State, q: Request): RunStatus {
    if !Succeeds(s, q) then InterruptedFailed
    else if WarningsOf(s, q) > 0 then CompletedWithWarnings else CompletedSuccess
  }

  lemma SyncReturns(s: State, q: Request)
    requires Reachable(s) && Succeeds(s, q)
    ensures var t, run := Synced(s, q), s.nextRun;
      && Reachable(t)
      && t.runs == s.runs[run := SyncRun(KeyOf(q.adapter, q.store), q.source,
                                         if WarningsOf(s, q) > 0 then CompletedWithWarnings else CompletedSuccess)]
      && |t.log| == |s.log| + 1 && t.log[..|s.log|] == s.log && t.log[|s.log|].run == run
      && Size(t.log[|s.log|].batch) == SnapshotsWritten(Next(s, StartOf(q)), q, run)
  {
    StartedWorks(s, q);
    PreparedWorks(s, q);
    CompletedRun(Prepared(Next(s, StartOf(q)), q, s.nextRun), s.nextRun, WarningsOf(s, q));
  }

  lemma SyncRaises(s: State, q: Request)
    requires Reachable(s) && !Succeeds(s, q)
    ensures var t, run := Synced(s, q), s.nextRun;
      && Reachable(t) && t.log == s.log
      && t.runs == if Starts(s, q) then s.runs[run := SyncRun(KeyOf(q.adapter, q.store), q.source, InterruptedFailed)]
                   else s.runs
  {
    if Starts(s, q) {
      StartedWorks(s, q);
      PreparedWorks(s, q);
      FailedRun(Prepared(Next(s, StartOf(q)), q, s.nextRun), s.nextRun);
    } else {
      ReachableNext(s, StartOf(q));
    }
  }

  /** Once a sync has started its run, it leaves that run completed (with warnings exactly when some were counted) if it
      returns, and failed if it raises; it touches no other run, and exactly a return adds a completion, which holds as
      many snapshots as were counted. */
  lemma SyncSettlesItsRun(s: State, q: Request)
    requires Reachable(s)
    ensures Reachable(Synced(s, q)) && s.nextRun !in s.runs
    ensures forall r :: r in s.runs ==> r in Synced(s, q).runs && Synced(s, q).runs[r] == s.runs[r]
    ensures Synced(s, q).runs.Keys == if Starts(s, q) then s.runs.Keys + {s.nextRun} else s.runs.Keys
    ensures Starts(s, q) ==> Synced(s, q).runs[s.nextRun].status == EndStatus(s, q)
    ensures if !Succeeds(s, q) then Synced(s, q).log == s.log
            else |Synced(s, q).log| == |s.log| + 1 && Synced(s, q).log[..|s.log|] == s.log
                 && Synced(s, q).log[|s.log|].run == s.nextRun
                 && Size(Synced(s, q).log[|s.log|].batch) == SnapshotsWritten(Next(s, StartOf(q)), q, s.nextRun)
  {
    FreshRun(s);
    if Succeeds(s, q) { SyncReturns(s, q); } else { SyncRaises(s, q); }
  }

  lemma FreshRun(s: State)
    requires Reachable(s)
    ensures s.nextRun !in s.runs
  {
    ReachableInv(s);
  }

  /** A sync whose rows raise nowhere returns, and its counters add up; for WB prices every warning is a skipped row or
      a listing without a snapshot. */
  lemma CleanSyncReturns(s: State, q: Request)
    requires Reachable(s) && Starts(s, q) && q.rows.Some? && !q.closingRaises && !q.autoPromotion
    requires forall row :: row in q.rows.value ==> row.fault.NoFault?
    ensures Succeeds(s, q)
    ensures Conserves(q.adapter, |q.rows.value|, Affected(q.rows.value, Duplicates(q.rows.value)),
                      Written(Next(s, StartOf(q)), q, s.nextRun, q.rows.value).tally)
  {
    var t, a, key := Next(s, StartOf(q)), q.adapter, KeyOf(q.adapter, q.store);
    StartedWorks(s, q);
    RowsWork(t, a, key, s.nextRun, Duplicates(q.rows.value), q.rows.value);
    RowsConserve(a, key, s.nextRun, Duplicates(q.rows.value), t, q.rows.value);
  }

  // ---------- the loops ----------

  /** The steps after a row's listing is known. */
  method RecordRow(tables: SyncTables, a: Adapter, run: nat, listing: nat, row: Row, before: Tally)
    returns (tally: Tally, raised: bool)
    requires tables.Valid()
    modifies tables
    ensures tables.Valid()
    ensures Outcome(tables.Contents(), tally, raised)
         == Recorded(a, run, Outcome(old(tables.Contents()), before, false), listing, row)
  {
    tally := before.(listings := before.listings + 1);
    if row.fault.AtLink? { return tally, true; }
    if row.linked { tally := tally.(mapped := tally.mapped + 1); }
    var payload := Payload(a, row, tables.clock);
    if payload.None? { return tally.(warnings := tally.warnings + 1), false; }
    if row.fault.AtSnapshot? { return tally, true; }
    var attached := tables.AttachSnapshot(run, Running, listing, payload.value);
    if !attached { return tally, true; }
    return tally.(snapshots := tally.snapshots + 1), false;
  }

  method WriteRow(tables: SyncTables, a: Adapter, key: SyncKey, run: nat, duplicates: set<string>, row: Row,
                  before: Tally)
    returns (tally: Tally, raised: bool)
    requires tables.Valid()
    modifies tables
    ensures tables.Valid()
    ensures Outcome(tables.Contents(), tally, raised)
         == RowStep(a, key, run, duplicates, Outcome(old(tables.Contents()), before, false), row)
  {
    var skipped := before.(skipped := before.skipped + 1, warnings := before.warnings + 1);
    if Unusable(a, duplicates, row) { return skipped, false; }
    if a.WbPromotions? {
      var found := Existing(tables.listings, key, row);
      if |found| != 1 { return skipped.(missing := skipped.missing + 1), false; }
      tally, raised := RecordRow(tables, a, run, Min(found), row, before);
    } else {
      if row.fault.AtUpsert? { return before, true; }
      var listing := tables.UpsertListing(run, row.externalId, row.ids, row.article);
      if listing.Raised? { return before, true; }
      tally, raised := RecordRow(tables, a, run, listing.value, row, before);
    }
  }

  lemma RaisedStays(a: Adapter, key: SyncKey, run: nat, duplicates: set<string>, o: Outcome, rows: seq<Row>, n: nat)
    requires n <= |rows| && RowsOutcome(a, key, run, duplicates, o, rows[..n]).raised
    ensures RowsOutcome(a, key, run, duplicates, o, rows) == RowsOutcome(a, key, run, duplicates, o, rows[..n])
    decreases |rows|
  {
    if n == |rows| {
      assert rows[..n] == rows;
    } else {
      assert rows[..|rows| - 1][..n] == rows[..n];
      RaisedStays(a, key, run, duplicates, o, rows[..|rows| - 1], n);
    }
  }

  method WriteRows(tables: SyncTables, a: Adapter, key: SyncKey, run: nat, duplicates: set<string>, rows: seq<Row>)
    returns (tally: Tally, raised: bool)
    requires tables.Valid()
    modifies tables
    ensures tables.Valid()
    ensures Outcome(tables.Contents(), tally, raised)
         == RowsOutcome(a, key, run, duplicates, Outcome(old(tables.Contents()), NOTHING, false), rows)
  {
    ghost var o := Outcome(tables.Contents(), NOTHING, false);
    tally, raised := NOTHING, false;
    for n := 0 to |rows|
      invariant tables.Valid() && !raised
      invariant Outcome(tables.Contents(), tally, raised) == RowsOutcome(a, key, run, duplicates, o, rows[..n])
    {
      assert rows[..n + 1][..n] == rows[..n];
      tally, raised := WriteRow(tables, a, key, run, duplicates, rows[n], tally);
      if raised {
        RaisedStays(a, key, run, duplicates, o, rows, n + 1);
        return;
      }
    }
    assert rows[..|rows|] == rows;
  }

  method CountAffected(rows: seq<Row>, duplicates: set<string>) returns (affected: nat)
    ensures affected == Affected(rows, duplicates)
  {
    affected := 0;
    for n := 0 to |rows|
      invariant affected == Affected(rows[..n], duplicates)
    {
      assert rows[..n + 1][..n] == rows[..n];
      if rows[n].article in duplicates { affected := affected + 1; }
    }
    assert rows[..|rows|] == rows;
  }

  /** Everything after a successful start; any raise ends in a failed run. */
  method WriteAndEnd(tables: SyncTables, q: Request, run: nat) returns (report: Result<Report>)
    requires tables.Valid()
    modifies tables
    ensures tables.Valid() && tables.Contents() == Ended(old(tables.Contents()), q, run)
    ensures report.Ok? <==> Returning(old(tables.Contents()), q, run)
    ensures report.Ok? ==> Honest(q, report.value) && report.value.run == run
                           && report.value.tally.warnings == EndWarnings(old(tables.Contents()), q, run)
  {
    if q.adapter.WbPromotions? && q.autoPromotion {
      if q.closingRaises {
        var _ := tables.FailRun(run, InterruptedFailed);
        return Raised;
      }
      var _ := tables.CompleteRun(run, 1);
      return Ok(Report(run, 0, NOTHING.(warnings := 1), 0, 0));
    }
    if q.rows.None? {
      var _ := tables.FailRun(run, InterruptedFailed);
      return Raised;
    }
    ghost var before := tables.Contents();
    var duplicates := DetectDuplicateArticles(q.rows.value);
    var tally, raised := WriteRows(tables, q.adapter, KeyOf(q.adapter, q.store), run, duplicates, q.rows.value);
    if raised || q.closingRaises {
      var _ := tables.FailRun(run, InterruptedFailed);
      return Raised;
    }
    RowsConserve(q.adapter, KeyOf(q.adapter, q.store), run, duplicates, before, q.rows.value);
    var affected := CountAffected(q.rows.value, duplicates);
    var _ := tables.CompleteRun(run, tally.warnings);
    return Ok(Report(run, |q.rows.value|, tally, |duplicates|, affected));
  }

  method Sync(tables: SyncTables, q: Request) returns (report: Result<Report>)
    requires tables.Valid()
    modifies tables
    ensures tables.Valid() && tables.Contents() == Synced(old(tables.Contents()), q)
    ensures report.Ok? <==> Succeeds(old(tables.Contents()), q)
    ensures report.Ok? ==> Honest(q, report.value) && report.value.run == old(tables.nextRun)
                           && report.value.tally.warnings == WarningsOf(old(tables.Contents()), q)
  {
    if q.adapter.OzonActions? && !q.groupKnown { return Raised; }
    var run := tables.StartRun(KeyOf(q.adapter, q.store), q.storeMarketplace, q.source);
    if run.Raised? { return Raised; }
    report := WriteAndEnd(tables, q, run.value);
  }
}
