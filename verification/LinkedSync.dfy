/** A sync together with the linkage of its listings, over the sync tables and the mapping tables at once. */
module LinkedSync {
  import opened Common
  import opened OperationTypes
  import opened Snapshots
  import opened SyncRuns
  import opened SyncAdapters
  import opened SyncCaches
  import Mapping
  import Sku

  datatype Joint = Joint(sync: State, mapping: Mapping.State)

  /** A normalised row with the title it carries. Whether its linkage records a mapping is now decided by the tables,
      and a fault at the link stands for what the linkage does besides, such as its audit record. */
  datatype SourceRow = SourceRow(row: Row, title: string)

  /** Where the loop stands, with the mapping tables beside the sync tables of the outcome. */
  datatype Standing = Standing(outcome: Outcome, mapping: Mapping.State)

  // ---------- the same listings in both tables ----------

  ghost predicate Aligned(listings: map<nat, Listing>, nextListing: nat, m: Mapping.State) {
    && m.listings.Keys == listings.Keys && m.nextListing == nextListing
    && forall l :: l in listings ==> m.listings[l].article == listings[l].article
  }

  ghost predicate Joined(s: State, m: Mapping.State) { Mapping.Reachable(m) && Aligned(s.listings, s.nextListing, m) }

  // ---------- one row ----------

  /** The mapping tables' part of an upsert. */
  function UpsertIn(s: State, m: Mapping.State, run: nat, x: SourceRow): Mapping.State
    requires run in s.runs
  {
    var l := Upserted(s, run, x.row.externalId);
    Mapping.Next(m, if l in s.listings then Mapping.UpdateListing(l, x.row.article, x.title)
                    else Mapping.NewListing(x.row.article, x.title))
  }

  /** What a row comes to: skipped, raised, or a listing to link and write a snapshot of. */
  datatype Aim = Skipped(missing: nat) | Broken(sync: State)
    | Recording(listing: nat, sync: State, mapping: Mapping.State)

  function AimOf(a: Adapter, key: SyncKey, run: nat, duplicates: set<string>, s: State, m: Mapping.State,
                 x: SourceRow): Aim {
    if Unusable(a, duplicates, x.row) then Skipped(0)
    else if a.WbPromotions? then
      var found := Existing(s.listings, key, x.row);
      if |found| != 1 then Skipped(1) else Recording(Min(found), s, m)
    else if x.row.fault.AtUpsert? then Broken(s)
    else
      var state := Next(s, Upsert(run, x.row.externalId, x.row.ids, x.row.article));
      if Upserting(s, run, x.row.externalId, x.row.ids, x.row.article).Raised? then Broken(state)
      else Recording(Upserted(s, run, x.row.externalId), state, UpsertIn(s, m, run, x))
  }

  /** The linkage through the listing object just read or written, if it does not raise. */
  function Linking(m: Mapping.State, l: nat, row: Row): Result<Mapping.State> {
    if row.fault.AtLink? || l !in m.listings then Raised else Mapping.Step(m, Mapping.ApiLink(l, m.listings[l]))
  }

  /** The linkage returned a new history row. */
  predicate Recorded(m: Mapping.State, t: Mapping.State, l: nat) {
    l in m.history && l in t.history && |t.history[l]| > |m.history[l]|
  }

  function LinkRow(o: Standing, l: nat, row: Row): Standing {
    var t, r := o.outcome.tally.(listings := o.outcome.tally.listings + 1), Linking(o.mapping, l, row);
    if r.Raised? then o.(outcome := Outcome(o.outcome.state, t, true))
    else Standing(o.outcome.(tally := t.(mapped := t.mapped + if Recorded(o.mapping, r.value, l) then 1 else 0)),
                  r.value)
  }

  function JointStep(a: Adapter, key: SyncKey, run: nat, duplicates: set<string>, o: Standing, x: SourceRow): Standing {
    if o.outcome.raised then o
    else
      match AimOf(a, key, run, duplicates, o.outcome.state, o.mapping, x)
      case Skipped(missing) => o.(outcome := Skip(o.outcome, missing))
      case Broken(sync) => o.(outcome := o.outcome.(state := sync, raised := true))
      case Recording(l, sync, mapping) =>
        var linked := LinkRow(Standing(o.outcome.(state := sync), mapping), l, x.row);
        linked.(outcome := Snapped(a, run, linked.outcome, l, x.row))
  }

  function JointRows(a: Adapter, key: SyncKey, run: nat, duplicates: set<string>, o: Standing,
                     rows: seq<SourceRow>): Standing {
    if rows == [] then o
    else JointStep(a, key, run, duplicates, JointRows(a, key, run, duplicates, o, rows[..|rows| - 1]), rows[|rows| - 1])
  }

  // ---------- the sync tables alone see the same loop ----------

  /** The row with what its linkage comes to. */
  function Decided(m: Mapping.State, l: nat, row: Row): Row {
    var r := Linking(m, l, row);
    if r.Raised? then row.(fault := AtLink) else row.(linked := Recorded(m, r.value, l))
  }

  function Annotated(a: Adapter, key: SyncKey, run: nat, duplicates: set<string>, o: Standing, x: SourceRow): Row {
    match AimOf(a, key, run, duplicates, o.outcome.state, o.mapping, x)
    case Recording(l, _, mapping) => Decided(mapping, l, x.row)
    case _ => x.row
  }

  function AnnotatedRows(a: Adapter, key: SyncKey, run: nat, duplicates: set<string>, o: Standing,
                         rows: seq<SourceRow>): seq<Row> {
    if rows == [] then []
    else
      var most := rows[..|rows| - 1];
      AnnotatedRows(a, key, run, duplicates, o, most)
      + [Annotated(a, key, run, duplicates, JointRows(a, key, run, duplicates, o, most), rows[|rows| - 1])]
  }

  function Plain(rows: seq<SourceRow>): seq<Row> { seq(|rows|, i requires 0 <= i < |rows| => rows[i].row) }

  /** Rows that say the same but for their linkage. */
  ghost predicate SameData(a: Row, b: Row) { a.(linked := b.linked, fault := b.fault) == b }

  lemma RowStepBySkips(a: Adapter, key: SyncKey, run: nat, duplicates: set<string>, o: Standing, x: SourceRow)
    requires !o.outcome.raised && !AimOf(a, key, run, duplicates, o.outcome.state, o.mapping, x).Recording?
    ensures JointStep(a, key, run, duplicates, o, x).outcome == RowStep(a, key, run, duplicates, o.outcome, x.row)
  {
  }

  lemma LinkedAlike(o: Standing, l: nat, row: Row)
    ensures LinkRow(o, l, row).outcome == Linked(o.outcome, Decided(o.mapping, l, row))
  {
  }

  lemma SnappedAlike(a: Adapter, run: nat, o: Outcome, l: nat, row: Row, decided: Row)
    requires SameData(row, decided) && (o.raised || decided.fault == row.fault)
    ensures Snapped(a, run, o, l, decided) == Snapped(a, run, o, l, row)
  {
  }

  lemma RowStepRecords(a: Adapter, key: SyncKey, run: nat, duplicates: set<string>, o: Standing, x: SourceRow,
                       decided: Row)
    requires !o.outcome.raised && AimOf(a, key, run, duplicates, o.outcome.state, o.mapping, x).Recording?
    requires SameData(x.row, decided) && (decided.fault == x.row.fault || decided.fault.AtLink?)
    ensures var aim := AimOf(a, key, run, duplicates, o.outcome.state, o.mapping, x);
      RowStep(a, key, run, duplicates, o.outcome, decided)
      == SyncAdapters.Recorded(a, run, o.outcome.(state := aim.sync), aim.listing, decided)
  {
    assert Unusable(a, duplicates, decided) == Unusable(a, duplicates, x.row);
    assert Existing(o.outcome.state.listings, key, decided) == Existing(o.outcome.state.listings, key, x.row);
  }

  lemma DecidedSameData(m: Mapping.State, l: nat, row: Row)
    ensures SameData(row, Decided(m, l, row))
    ensures Decided(m, l, row).fault == if Linking(m, l, row).Raised? then AtLink else row.fault
  {
  }

  lemma StepSimulates(a: Adapter, key: SyncKey, run: nat, duplicates: set<string>, o: Standing, x: SourceRow)
    ensures JointStep(a, key, run, duplicates, o, x).outcome
         == RowStep(a, key, run, duplicates, o.outcome, Annotated(a, key, run, duplicates, o, x))
    ensures SameData(x.row, Annotated(a, key, run, duplicates, o, x))
  {
    var aim := AimOf(a, key, run, duplicates, o.outcome.state, o.mapping, x);
    if aim.Recording? {
      DecidedSameData(aim.mapping, aim.listing, x.row);
      if !o.outcome.raised {
        var p, decided := Standing(o.outcome.(state := aim.sync), aim.mapping),
            Decided(aim.mapping, aim.listing, x.row);
        LinkedAlike(p, aim.listing, x.row);
        SnappedAlike(a, run, LinkRow(p, aim.listing, x.row).outcome, aim.listing, x.row, decided);
        RowStepRecords(a, key, run, duplicates, o, x, decided);
      }
    } else if !o.outcome.raised {
      RowStepBySkips(a, key, run, duplicates, o, x);
    }
  }

  lemma AnnotatedSameData(a: Adapter, key: SyncKey, run: nat, duplicates: set<string>, o: Standing, x: SourceRow)
    ensures SameData(x.row, Annotated(a, key, run, duplicates, o, x))
  {
    StepSimulates(a, key, run, duplicates, o, x);
  }

  lemma {:induction false} AnnotatedLength(a: Adapter, key: SyncKey, run: nat, duplicates: set<string>, o: Standing,
                                           rows: seq<SourceRow>)
    ensures |AnnotatedRows(a, key, run, duplicates, o, rows)| == |rows|
  {
    if rows != [] { AnnotatedLength(a, key, run, duplicates, o, rows[..|rows| - 1]); }
  }

  lemma {:induction false} AnnotatedAt(a: Adapter, key: SyncKey, run: nat, duplicates: set<string>, o: Standing,
                                       rows: seq<SourceRow>, i: nat)
    requires i < |rows|
    ensures |AnnotatedRows(a, key, run, duplicates, o, rows)| == |rows|
    ensures SameData(rows[i].row, AnnotatedRows(a, key, run, duplicates, o, rows)[i])
    decreases |rows|
  {
    var most, last := rows[..|rows| - 1], rows[|rows| - 1];
    assert rows == most + [last];
    JointRowsSnoc(a, key, run, duplicates, o, most, last);
    AnnotatedLength(a, key, run, duplicates, o, most);
    if i < |most| {
      AnnotatedAt(a, key, run, duplicates, o, most, i);
    } else {
      AnnotatedSameData(a, key, run, duplicates, JointRows(a, key, run, duplicates, o, most), last);
    }
  }

  lemma JointRowsSnoc(a: Adapter, key: SyncKey, run: nat, duplicates: set<string>, o: Standing, rows: seq<SourceRow>,
                      x: SourceRow)
    ensures var before := JointRows(a, key, run, duplicates, o, rows);
      && JointRows(a, key, run, duplicates, o, rows + [x]) == JointStep(a, key, run, duplicates, before, x)
      && AnnotatedRows(a, key, run, duplicates, o, rows + [x])
         == AnnotatedRows(a, key, run, duplicates, o, rows) + [Annotated(a, key, run, duplicates, before, x)]
  {
    assert (rows + [x])[..|rows|] == rows;
  }

  /** On the sync tables the joint loop does what the loop alone does with rows that carry the outcome of their
      linkage. */
  lemma {:induction false} RowsSimulate(a: Adapter, key: SyncKey, run: nat, duplicates: set<string>, o: Standing,
                                        rows: seq<SourceRow>)
    ensures JointRows(a, key, run, duplicates, o, rows).outcome
         == RowsOutcome(a, key, run, duplicates, o.outcome, AnnotatedRows(a, key, run, duplicates, o, rows))
    decreases |rows|
  {
    if rows != [] {
      var most, last := rows[..|rows| - 1], rows[|rows| - 1];
      assert rows == most + [last];
      var o' := JointRows(a, key, run, duplicates, o, most);
      RowsSimulate(a, key, run, duplicates, o, most);
      JointRowsSnoc(a, key, run, duplicates, o, most, last);
      StepSimulates(a, key, run, duplicates, o', last);
      RowsOutcomeSnoc(a, key, run, duplicates, o.outcome, AnnotatedRows(a, key, run, duplicates, o, most),
                      Annotated(a, key, run, duplicates, o', last));
    }
  }

  lemma RowsOutcomeSnoc(a: Adapter, key: SyncKey, run: nat, duplicates: set<string>, o: Outcome, rows: seq<Row>,
                        row: Row)
    ensures RowsOutcome(a, key, run, duplicates, o, rows + [row])
         == RowStep(a, key, run, duplicates, RowsOutcome(a, key, run, duplicates, o, rows), row)
  {
    assert (rows + [row])[..|rows|] == rows;
  }

  // ---------- how many history rows there are ----------

  function Records(history: map<nat, seq<Mapping.Record>>): nat
    decreases |history|
  {
    if history == map[] then 0
    else
      var l := Min(history.Keys);
      |history[l]| + Records(history - {l})
  }

  lemma {:induction false} RecordsWithout(history: map<nat, seq<Mapping.Record>>, l: nat)
    requires l in history
    ensures Records(history) == |history[l]| + Records(history - {l})
    decreases |history|
  {
    var k := Min(history.Keys);
    if k != l {
      RecordsWithout(history - {k}, l);
      RecordsWithout(history - {l}, k);
      assert history - {k} - {l} == history - {l} - {k};
    }
  }

  lemma RecordsUpdated(history: map<nat, seq<Mapping.Record>>, l: nat, records: seq<Mapping.Record>)
    ensures Records(history[l := records]) == |records| + Records(history - {l})
    ensures l in history ==> Records(history) == |history[l]| + Records(history - {l})
    ensures l !in history ==> history - {l} == history
  {
    RecordsWithout(history[l := records], l);
    assert history[l := records] - {l} == history - {l};
    if l in history { RecordsWithout(history, l); }
  }

  // ---------- what a linkage leaves ----------

  /** Matched to a live variant of a live product that holds the SKU, or in conflict. */
  ghost predicate SettledFor(m: Mapping.State, l: nat, sku: string) {
    l in m.listings && var mapping := m.listings[l].mapping;
    mapping.status.Conflict?
    || (mapping.status.Matched? && mapping.variant.Some? && Mapping.SafeVariant(m, mapping.variant.value)
        && m.variants[mapping.variant.value].sku == sku)
  }

  /** A listing whose article is a valid SKU is settled for it. */
  ghost predicate Settled(m: Mapping.State, l: nat) {
    l in m.listings && (Sku.ValidApiSku(m.listings[l].article) != "" ==>
                          SettledFor(m, l, Sku.ValidApiSku(m.listings[l].article)))
  }

  /** Products and variants stay, but for a variant's review state. */
  ghost predicate Extends(m: Mapping.State, t: Mapping.State) {
    && (forall p :: p in m.products ==> p in t.products && t.products[p] == m.products[p])
    && forall v :: v in m.variants ==>
         v in t.variants && t.variants[v] == m.variants[v].(review := t.variants[v].review)
  }

  /** Only the listing's mapping moved, and at most one history row, its own, was added. */
  ghost predicate WroteAtMostOne(m: Mapping.State, t: Mapping.State, l: nat) {
    && l in m.listings && l in t.listings && l in m.history
    && t.listings == m.listings[l := m.listings[l].(mapping := t.listings[l].mapping)]
    && t.nextListing == m.nextListing
    && (t.history == m.history || exists r :: t.history == m.history[l := m.history[l] + [r]])
  }

  lemma WriteWrites(m: Mapping.State, l: nat, mapping: Mapping.Mapped, record: Mapping.Record)
    requires Mapping.Known(m, l)
    ensures WroteAtMostOne(m, Mapping.Write(m, l, mapping, record), l)
  {
  }

  lemma MarkWrites(m: Mapping.State, l: nat, seen: Mapping.Mapped)
    requires Mapping.Known(m, l)
    ensures WroteAtMostOne(m, Mapping.MarkConflict(m, l, seen), l)
  {
    if !seen.status.Conflict? {
      WriteWrites(m, l, m.listings[l].mapping.(status := Mapping.Conflict),
                  Mapping.Record(Mapping.ConflictMarker, Mapping.Conflict, seen.variant, seen.variant));
    }
  }

  lemma WroteThrough(m: Mapping.State, t: Mapping.State, u: Mapping.State, l: nat)
    requires Mapping.Known(m, l) && t.listings == m.listings && t.history == m.history && t.nextListing == m.nextListing
    requires WroteAtMostOne(t, u, l)
    ensures WroteAtMostOne(m, u, l)
  {
  }

  lemma LinkWrites(m: Mapping.State, l: nat, seen: Mapping.Listing, v: nat)
    requires Mapping.Known(m, l) && v in m.variants
    ensures WroteAtMostOne(m, Mapping.Link(m, l, seen, v), l)
  {
    var x := seen.mapping;
    if x.variant.Some? && x.variant.value != v {
      MarkWrites(m, l, x);
    } else {
      WriteWrites(m, l, Mapping.Mapped(Some(v), Mapping.Matched),
                  Mapping.Record(Mapping.MapAction, Mapping.Matched, x.variant, Some(v)));
    }
  }

  lemma LinkageWrites(m: Mapping.State, l: nat, seen: Mapping.Listing, sku: string)
    requires Mapping.Known(m, l) && Mapping.LinkBySku(m, l, seen, sku).Ok?
    ensures WroteAtMostOne(m, Mapping.LinkBySku(m, l, seen, sku).value, l)
  {
    var r := Mapping.ResolveVariant(m, sku);
    if sku == "" {
    } else if Mapping.HoldsOther(m, seen, sku) || r.Unsafe? || (r.Missing? && Mapping.ResolveParent(m, sku).Unsafe?) {
      MarkWrites(m, l, seen.mapping);
    } else if r.One? {
      LinkWrites(m, l, seen, r.id);
    } else {
      var t := Mapping.CreateFor(m, sku, Strip(seen.title)).value;
      LinkWrites(t, l, seen, m.nextVariant);
      WroteThrough(m, t, Mapping.Link(t, l, seen, m.nextVariant), l);
    }
  }

  lemma LinkageSettles(m: Mapping.State, l: nat, sku: string)
    requires Mapping.Inv(m) && Mapping.Known(m, l) && Mapping.LinkBySku(m, l, m.listings[l], sku).Ok?
    ensures var t := Mapping.LinkBySku(m, l, m.listings[l], sku).value;
      Extends(m, t) && (sku != "" ==> SettledFor(t, l, sku))
  {
    if sku != "" {
      var seen, t := m.listings[l], Mapping.LinkBySku(m, l, m.listings[l], sku).value;
      Mapping.ApiLinkOutcome(m, l, seen, sku);
      if !Mapping.UnsafeFor(m, seen, sku) {
        var v :| Mapping.LinkedTo(m, t, l, seen.mapping, sku, v);
        assert t.listings[l].mapping == Mapping.Mapped(Some(v), Mapping.Matched);
      }
    }
  }

  /** The mapping tables after a linkage, against those before. */
  ghost predicate LinkedOnce(m: Mapping.State, t: Mapping.State, l: nat) {
    && Mapping.Reachable(t) && WroteAtMostOne(m, t, l) && Extends(m, t) && Settled(t, l)
    && (Mapping.Faithful(m) ==> Mapping.Faithful(t))
  }

  lemma LinkingMeaning(m: Mapping.State, l: nat, row: Row)
    requires Mapping.Reachable(m) && l in m.listings && Linking(m, l, row).Ok?
    ensures LinkedOnce(m, Linking(m, l, row).value, l)
  {
    var c := Mapping.ApiLink(l, m.listings[l]);
    Mapping.ReachableInv(m);
    Mapping.ReachableNext(m, c);
    LinkageWrites(m, l, m.listings[l], Sku.ValidApiSku(m.listings[l].article));
    LinkageSettles(m, l, Sku.ValidApiSku(m.listings[l].article));
    if Mapping.Faithful(m) { Mapping.StepStaysFaithful(m, c); }
  }

  lemma OthersStaySettled(m: Mapping.State, t: Mapping.State, k: nat)
    requires Settled(m, k) && Extends(m, t) && k in t.listings && t.listings[k] == m.listings[k]
    ensures Settled(t, k)
  {
  }

  // ---------- what the loop keeps ----------

  /** Every listing a usable row so far means is settled. */
  ghost predicate AllSettled(a: Adapter, listings: map<nat, Listing>, m: Mapping.State, key: SyncKey,
                             duplicates: set<string>, rows: seq<SourceRow>)
  {
    forall i, l ::
      (0 <= i < |rows| && !Unusable(a, duplicates, rows[i].row) && InScope(listings, l, key)
       && Means(a, listings, key, rows[i].row, l)) ==>
      Settled(m, l)
  }

  /** The mapping tables against those the loop started with: aligned, no less faithful, and with a new history row for
      each mapping counted. */
  ghost predicate Keeps(m: Mapping.State, o: Standing) {
    && Joined(o.outcome.state, o.mapping) && (Mapping.Faithful(m) ==> Mapping.Faithful(o.mapping))
    && Records(o.mapping.history) == Records(m.history) + o.outcome.tally.mapped
  }

  lemma UpsertedArticle(s: State, run: nat, row: Row)
    requires Reachable(s) && run in s.runs && row.externalId != ""
    ensures var u := Next(s, Upsert(run, row.externalId, row.ids, row.article));
      var l := Upserted(s, run, row.externalId);
      && u.nextListing == (if l in s.listings then s.nextListing else s.nextListing + 1)
      && (l !in s.listings ==> l == s.nextListing)
      && u.listings.Keys == s.listings.Keys + {l} && u.listings[l].article == row.article
      && forall k :: k in s.listings && k != l ==> u.listings[k].article == s.listings[k].article
  {
    ReachableInv(s);
  }

  lemma UpdatedJoined(m: Mapping.State, l: nat, article: string, title: string)
    requires Mapping.Reachable(m) && l in m.listings
    ensures var t := Mapping.Next(m, Mapping.UpdateListing(l, article, title));
      && Mapping.Reachable(t) && (Mapping.Faithful(m) ==> Mapping.Faithful(t))
         && Records(t.history) == Records(m.history)
      && t.products == m.products && t.variants == m.variants && t.nextListing == m.nextListing
      && t.listings == m.listings[l := m.listings[l].(article := article, title := title)]
  {
    var c := Mapping.UpdateListing(l, article, title);
    Mapping.ReachableInv(m);
    Mapping.ReachableNext(m, c);
    if Mapping.Faithful(m) { Mapping.StepStaysFaithful(m, c); }
  }

  lemma ListedJoined(m: Mapping.State, article: string, title: string)
    requires Mapping.Reachable(m)
    ensures var t := Mapping.Next(m, Mapping.NewListing(article, title));
      && Mapping.Reachable(t) && (Mapping.Faithful(m) ==> Mapping.Faithful(t))
         && Records(t.history) == Records(m.history)
      && t.products == m.products && t.variants == m.variants && t.nextListing == m.nextListing + 1
      && t.listings == m.listings[m.nextListing := Mapping.Listing(article, title, Mapping.UNMAPPED)]
  {
    var c := Mapping.NewListing(article, title);
    Mapping.ReachableInv(m);
    Mapping.ReachableNext(m, c);
    RecordsUpdated(m.history, m.nextListing, []);
    if Mapping.Faithful(m) { Mapping.StepStaysFaithful(m, c); }
  }

  lemma AlignedUpsert(before: map<nat, Listing>, m: Mapping.State, after: map<nat, Listing>, t: Mapping.State, l: nat)
    requires Aligned(before, m.nextListing, m) && after.Keys == before.Keys + {l}
             && t.listings.Keys == m.listings.Keys + {l}
    requires after[l].article == t.listings[l].article && OthersStay(m, t, l)
    requires forall k :: k in before && k != l ==> after[k].article == before[k].article
    ensures Aligned(after, t.nextListing, t)
  {
  }

  lemma UpsertedJoined(s: State, m: Mapping.State, key: SyncKey, run: nat, x: SourceRow)
    requires Reachable(s) && Joined(s, m) && run in s.runs && s.runs[run].key == key && x.row.externalId != ""
    ensures var u := Next(s, Upsert(run, x.row.externalId, x.row.ids, x.row.article)); var t := UpsertIn(s, m, run, x);
      && Joined(u, t) && (Mapping.Faithful(m) ==> Mapping.Faithful(t)) && Records(t.history) == Records(m.history)
      && t.products == m.products && t.variants == m.variants
      && OthersStay(m, t, Upserted(s, run, x.row.externalId))
  {
    var l := Upserted(s, run, x.row.externalId);
    UpsertedShape(s, key, run, x.row);
    UpsertedArticle(s, run, x.row);
    if l in s.listings {
      UpdatedJoined(m, l, x.row.article, x.title);
    } else {
      ListedJoined(m, x.row.article, x.title);
    }
    AlignedUpsert(s.listings, m, Next(s, Upsert(run, x.row.externalId, x.row.ids, x.row.article)).listings,
                  UpsertIn(s, m, run, x), l);
  }

  ghost predicate OthersStay(m: Mapping.State, t: Mapping.State, l: nat) {
    forall k :: k in m.listings && k != l ==> k in t.listings && t.listings[k] == m.listings[k]
  }

  /** The state a row is recorded in. */
  ghost predicate Aimed(s: State, m: Mapping.State, key: SyncKey, run: nat, aim: Aim) {
    && aim.Recording? && Joined(aim.sync, aim.mapping) && InScope(aim.sync.listings, aim.listing, key)
    && (Mapping.Faithful(m) ==> Mapping.Faithful(aim.mapping)) && Records(aim.mapping.history) == Records(m.history)
    && SamePlaces(s.listings, aim.sync.listings) && aim.sync.listings.Keys == s.listings.Keys + {aim.listing}
    && Extends(m, aim.mapping)
    && OthersStay(m, aim.mapping, aim.listing)
  }

  lemma AimMeaning(s: State, a: Adapter, key: SyncKey, run: nat, duplicates: set<string>, t: State, n: nat,
                   m: Mapping.State, x: SourceRow)
    requires Working(s, key, run, t, n) && Joined(t, m) && AimOf(a, key, run, duplicates, t, m, x).Recording?
    ensures var aim := AimOf(a, key, run, duplicates, t, m, x);
      Aimed(t, m, key, run, aim) && Target(a, aim.sync.listings, key, x.row, aim.listing)
      && (a.WbPromotions? ==> aim.sync == t)
  {
    var aim := AimOf(a, key, run, duplicates, t, m, x);
    if a.WbPromotions? {
      OnlyMember(Existing(t.listings, key, x.row));
    } else {
      UpsertWorks(s, key, run, t, n, x.row);
      UpsertedShape(t, key, run, x.row);
      UpsertedJoined(t, m, key, run, x);
      UpsertTargets(aim.sync, a, key, x.row, aim.listing);
    }
  }

  lemma RecordsGrow(m: Mapping.State, t: Mapping.State, l: nat)
    requires WroteAtMostOne(m, t, l)
    ensures Records(t.history) == Records(m.history) + if Recorded(m, t, l) then 1 else 0
  {
    if t.history != m.history {
      var r :| t.history == m.history[l := m.history[l] + [r]];
      RecordsUpdated(m.history, l, m.history[l] + [r]);
    }
  }

  /** Linking keeps what the loop keeps, settles its listing, and leaves the other listings alone. */
  lemma LinkRowKeeps(m: Mapping.State, o: Standing, l: nat, row: Row)
    requires Keeps(m, o) && l in o.outcome.state.listings
    ensures var p := LinkRow(o, l, row);
      && Keeps(m, p) && p.outcome.state == o.outcome.state && Extends(o.mapping, p.mapping)
      && (p.outcome.raised || o.outcome.raised || Settled(p.mapping, l))
      && OthersStay(o.mapping, p.mapping, l)
  {
    if Linking(o.mapping, l, row).Ok? {
      LinkingMeaning(o.mapping, l, row);
      RecordsGrow(o.mapping, Linking(o.mapping, l, row).value, l);
    }
  }

  lemma SnappedKeeps(m: Mapping.State, a: Adapter, run: nat, o: Standing, l: nat, row: Row)
    requires Keeps(m, o)
    ensures var p := Snapped(a, run, o.outcome, l, row);
      Keeps(m, o.(outcome := p)) && p.state.listings == o.outcome.state.listings && (!p.raised ==> !o.outcome.raised)
  {
  }

  /** Listings a row does not mean keep their looks and stay settled. */
  lemma RowSettles(a: Adapter, key: SyncKey, duplicates: set<string>, before: map<nat, Listing>, m: Mapping.State,
                   after: map<nat, Listing>, t: Mapping.State, l: nat, rows: seq<SourceRow>, x: SourceRow)
    requires AllSettled(a, before, m, key, duplicates, rows) && Settled(t, l) && Extends(m, t)
             && Target(a, after, key, x.row, l)
    requires SamePlaces(before, after) && after.Keys == before.Keys + {l} && (a.WbPromotions? ==> after == before)
    requires OthersStay(m, t, l) && before.Keys <= m.listings.Keys
    ensures AllSettled(a, after, t, key, duplicates, rows + [x])
  {
    var all := rows + [x];
    forall i, k | 0 <= i < |all| && !Unusable(a, duplicates, all[i].row) && InScope(after, k, key)
      && Means(a, after, key, all[i].row, k)
      ensures Settled(t, k)
    {
      if k != l {
        assert i < |rows| && all[i] == rows[i];
        assert InScope(before, k, key) && Means(a, before, key, rows[i].row, k);
        OthersStaySettled(m, t, k);
      }
    }
  }

  lemma SkippedSettles(a: Adapter, key: SyncKey, duplicates: set<string>, listings: map<nat, Listing>, m: Mapping.State,
                       rows: seq<SourceRow>, x: SourceRow)
    requires AllSettled(a, listings, m, key, duplicates, rows)
    requires Unusable(a, duplicates, x.row) || (a.WbPromotions? && |Existing(listings, key, x.row)| != 1)
    ensures AllSettled(a, listings, m, key, duplicates, rows + [x])
  {
    var all := rows + [x];
    forall i, k | 0 <= i < |all| && !Unusable(a, duplicates, all[i].row) && InScope(listings, k, key)
                  && Means(a, listings, key, all[i].row, k)
      ensures Settled(m, k)
    {
      assert i < |rows| && all[i] == rows[i];
    }
  }

  lemma RecordingKeeps(s: State, m: Mapping.State, a: Adapter, key: SyncKey, run: nat, duplicates: set<string>,
                       o: Standing, rows: seq<SourceRow>, x: SourceRow)
    requires Working(s, key, run, o.outcome.state, o.outcome.tally.snapshots) && Keeps(m, o) && !o.outcome.raised
    requires AllSettled(a, o.outcome.state.listings, o.mapping, key, duplicates, rows)
    requires AimOf(a, key, run, duplicates, o.outcome.state, o.mapping, x).Recording?
    ensures var p := JointStep(a, key, run, duplicates, o, x);
      Keeps(m, p) && (p.outcome.raised || AllSettled(a, p.outcome.state.listings, p.mapping, key, duplicates,
                                                     rows + [x]))
  {
    var t, aim := o.outcome.state, AimOf(a, key, run, duplicates, o.outcome.state, o.mapping, x);
    var l, q := aim.listing, Standing(o.outcome.(state := aim.sync), aim.mapping);
    AimMeaning(s, a, key, run, duplicates, t, o.outcome.tally.snapshots, o.mapping, x);
    LinkRowKeeps(m, q, l, x.row);
    var linked := LinkRow(q, l, x.row);
    SnappedKeeps(m, a, run, linked, l, x.row);
    if !linked.outcome.raised {
      ExtendsThrough(o.mapping, aim.mapping, linked.mapping);
      RowSettles(a, key, duplicates, t.listings, o.mapping, aim.sync.listings, linked.mapping, l, rows, x);
    }
  }

  lemma ExtendsThrough(m: Mapping.State, t: Mapping.State, u: Mapping.State)
    requires Extends(m, t) && Extends(t, u)
    ensures Extends(m, u)
  {
  }

  lemma JointStepKeeps(s: State, m: Mapping.State, a: Adapter, key: SyncKey, run: nat, duplicates: set<string>,
                       o: Standing, rows: seq<SourceRow>, x: SourceRow)
    requires Working(s, key, run, o.outcome.state, o.outcome.tally.snapshots) && Keeps(m, o)
    requires o.outcome.raised || AllSettled(a, o.outcome.state.listings, o.mapping, key, duplicates, rows)
    ensures var p := JointStep(a, key, run, duplicates, o, x);
      Keeps(m, p) && (p.outcome.raised || AllSettled(a, p.outcome.state.listings, p.mapping, key, duplicates,
                                                     rows + [x]))
  {
    if !o.outcome.raised {
      var aim := AimOf(a, key, run, duplicates, o.outcome.state, o.mapping, x);
      if aim.Recording? {
        RecordingKeeps(s, m, a, key, run, duplicates, o, rows, x);
      } else if aim.Skipped? {
        SkippedSettles(a, key, duplicates, o.outcome.state.listings, o.mapping, rows, x);
      }
    }
  }

  function Beginning(j: Joint): Standing { Standing(Outcome(j.sync, NOTHING, false), j.mapping) }

  lemma {:induction false} JointRowsKeep(j: Joint, a: Adapter, key: SyncKey, run: nat, duplicates: set<string>,
                                         rows: seq<SourceRow>)
    requires Working(j.sync, key, run, j.sync, 0) && Joined(j.sync, j.mapping)
    ensures var p := JointRows(a, key, run, duplicates, Beginning(j), rows);
      && Working(j.sync, key, run, p.outcome.state, p.outcome.tally.snapshots) && Keeps(j.mapping, p)
      && (p.outcome.raised || AllSettled(a, p.outcome.state.listings, p.mapping, key, duplicates, rows))
  {
    if rows != [] {
      var most := rows[..|rows| - 1];
      var o := JointRows(a, key, run, duplicates, Beginning(j), most);
      JointRowsKeep(j, a, key, run, duplicates, most);
      JointStepKeeps(j.sync, j.mapping, a, key, run, duplicates, o, most, rows[|rows| - 1]);
      StepSimulates(a, key, run, duplicates, o, rows[|rows| - 1]);
      RowWorks(j.sync, a, key, run, duplicates, o.outcome, Annotated(a, key, run, duplicates, o, rows[|rows| - 1]));
      assert rows == most + [rows[|rows| - 1]];
    }
  }

  // ---------- a whole sync ----------

  /** The rows of the request with their titles, unless normalising them raises. */
  ghost predicate Titled(q: Request, rows: seq<SourceRow>) { q.rows.Some? ==> q.rows.value == Plain(rows) }

  predicate Loops(s: State, q: Request) {
    Starts(s, q) && !(q.adapter.WbPromotions? && q.autoPromotion) && q.rows.Some?
  }

  function Started(j: Joint, q: Request): Joint { j.(sync := Next(j.sync, StartOf(q))) }

  function Looped(j: Joint, q: Request, rows: seq<SourceRow>): Standing {
    JointRows(q.adapter, KeyOf(q.adapter, q.store), j.sync.nextRun, Duplicates(Plain(rows)), Beginning(Started(j, q)),
              rows)
  }

  function LinkedSynced(j: Joint, q: Request, rows: seq<SourceRow>): Joint {
    if !Loops(j.sync, q) then j.(sync := Synced(j.sync, q))
    else
      var o, run := Looped(j, q, rows), j.sync.nextRun;
      Joint(Next(o.outcome.state, if o.outcome.raised || q.closingRaises then Fail(run, InterruptedFailed)
                                  else Complete(run, o.outcome.tally.warnings)), o.mapping)
  }

  /** The request as the sync tables see it: each row carries what its linkage came to. */
  function Resolved(j: Joint, q: Request, rows: seq<SourceRow>): Request {
    if !Loops(j.sync, q) then q
    else q.(rows := Some(AnnotatedRows(q.adapter, KeyOf(q.adapter, q.store), j.sync.nextRun, Duplicates(Plain(rows)),
                                       Beginning(Started(j, q)), rows)))
  }

  lemma {:induction false} SameTimes(a: seq<Row>, b: seq<Row>, article: string)
    requires |a| == |b| && forall i :: 0 <= i < |a| ==> SameData(a[i], b[i])
    ensures Times(a, article) == Times(b, article)
  {
    if a != [] { SameTimes(a[..|a| - 1], b[..|b| - 1], article); }
  }

  lemma SameArticles(a: seq<Row>, b: seq<Row>)
    requires |a| == |b| && forall i :: 0 <= i < |a| ==> SameData(a[i], b[i])
    ensures Articles(a) <= Articles(b)
  {
    forall x | x in Articles(a) ensures x in Articles(b) {
      var i :| 0 <= i < |a| && a[i].article == x;
      assert SameData(a[i], b[i]);
    }
  }

  lemma SameDuplicates(a: seq<Row>, b: seq<Row>)
    requires |a| == |b| && forall i :: 0 <= i < |a| ==> SameData(a[i], b[i])
    ensures Duplicates(a) == Duplicates(b)
  {
    forall i | 0 <= i < |a| ensures SameData(b[i], a[i]) { assert SameData(a[i], b[i]); }
    SameArticles(a, b);
    SameArticles(b, a);
    forall x ensures Times(a, x) == Times(b, x) { SameTimes(a, b, x); }
  }

  lemma ResolvedDuplicates(j: Joint, q: Request, rows: seq<SourceRow>)
    requires Loops(j.sync, q)
    ensures Duplicates(Resolved(j, q, rows).rows.value) == Duplicates(Plain(rows))
  {
    var plain, annotated := Plain(rows), Resolved(j, q, rows).rows.value;
    AnnotatedLength(q.adapter, KeyOf(q.adapter, q.store), j.sync.nextRun, Duplicates(plain), Beginning(Started(j, q)),
                    rows);
    forall i | 0 <= i < |plain| ensures SameData(plain[i], annotated[i]) {
      AnnotatedAt(q.adapter, KeyOf(q.adapter, q.store), j.sync.nextRun, Duplicates(plain), Beginning(Started(j, q)),
                  rows, i);
    }
    SameDuplicates(plain, annotated);
  }

  lemma LoopedIsWritten(j: Joint, q: Request, rows: seq<SourceRow>)
    requires Loops(j.sync, q)
    ensures Looped(j, q, rows).outcome
         == Written(Next(j.sync, StartOf(q)), Resolved(j, q, rows), j.sync.nextRun, Resolved(j, q, rows).rows.value)
  {
    ResolvedDuplicates(j, q, rows);
    RowsSimulate(q.adapter, KeyOf(q.adapter, q.store), j.sync.nextRun, Duplicates(Plain(rows)),
                 Beginning(Started(j, q)), rows);
  }

  /** On the sync tables a sync with linkage is the sync alone, of rows that carry what their linkage came to; so all
      that is proved of the sync alone holds of it. */
  lemma LinkedSyncRefines(j: Joint, q: Request, rows: seq<SourceRow>)
    requires Titled(q, rows)
    ensures LinkedSynced(j, q, rows).sync == Synced(j.sync, Resolved(j, q, rows))
    ensures Loops(j.sync, q) ==>
              (Succeeds(j.sync, Resolved(j, q, rows)) <==> !Looped(j, q, rows).outcome.raised && !q.closingRaises)
  {
    if Loops(j.sync, q) { LoopedIsWritten(j, q, rows); }
  }

  lemma LoopKeeps(j: Joint, q: Request, rows: seq<SourceRow>)
    requires Reachable(j.sync) && Joined(j.sync, j.mapping) && Loops(j.sync, q)
    ensures var o := Looped(j, q, rows);
      && Keeps(j.mapping, o) && Reachable(o.outcome.state)
      && (o.outcome.raised || AllSettled(q.adapter, o.outcome.state.listings, o.mapping, KeyOf(q.adapter, q.store),
                                         Duplicates(Plain(rows)), rows))
  {
    StartedWorks(j.sync, q);
    JointRowsKeep(Started(j, q), q.adapter, KeyOf(q.adapter, q.store), j.sync.nextRun, Duplicates(Plain(rows)), rows);
  }

  lemma SameLooksAligned(before: map<nat, Listing>, after: map<nat, Listing>, nextListing: nat, m: Mapping.State)
    requires Aligned(before, nextListing, m) && SameLooks(before, after)
    ensures Aligned(after, nextListing, m)
  {
  }

  lemma EndKeepsLooks(s: State, c: Command)
    requires c.Complete? || c.Fail? || c.Start?
    ensures SameLooks(s.listings, Next(s, c).listings) && Next(s, c).nextListing == s.nextListing
  {
    if c.Complete? { CompletionKeepsLooks(s, c.run, c.warningCount); }
  }

  lemma EndStaysJoined(s: State, m: Mapping.State, c: Command)
    requires Joined(s, m) && (c.Complete? || c.Fail? || c.Start?)
    ensures Joined(Next(s, c), m) && SameLooks(s.listings, Next(s, c).listings)
  {
    EndKeepsLooks(s, c);
    SameLooksAligned(s.listings, Next(s, c).listings, s.nextListing, m);
  }

  lemma LooksStaySettled(a: Adapter, before: map<nat, Listing>, after: map<nat, Listing>, m: Mapping.State,
                         key: SyncKey, duplicates: set<string>, rows: seq<SourceRow>)
    requires AllSettled(a, before, m, key, duplicates, rows) && SameLooks(before, after)
    ensures AllSettled(a, after, m, key, duplicates, rows)
  {
    forall i, l | 0 <= i < |rows| && !Unusable(a, duplicates, rows[i].row) && InScope(after, l, key)
                  && Means(a, after, key, rows[i].row, l)
      ensures Settled(m, l)
    {
      SameMeaning(a, before, after, key, rows[i].row, l);
      assert InScope(before, l, key);
    }
  }

  lemma UnloopedStaysJoined(j: Joint, q: Request)
    requires Joined(j.sync, j.mapping) && !Loops(j.sync, q)
    ensures Joined(Synced(j.sync, q), j.mapping)
  {
    EndStaysJoined(j.sync, j.mapping, StartOf(q));
    EndStaysJoined(Next(j.sync, StartOf(q)), j.mapping, Complete(j.sync.nextRun, 1));
    EndStaysJoined(Next(j.sync, StartOf(q)), j.mapping, Fail(j.sync.nextRun, InterruptedFailed));
  }

  function MappedBy(j: Joint, q: Request, rows: seq<SourceRow>): nat {
    if Loops(j.sync, q) then Looped(j, q, rows).outcome.tally.mapped else 0
  }

  lemma LoopedSyncKeeps(j: Joint, q: Request, rows: seq<SourceRow>)
    requires Reachable(j.sync) && Joined(j.sync, j.mapping) && Loops(j.sync, q)
    ensures var t := LinkedSynced(j, q, rows);
      && Joined(t.sync, t.mapping) && (Mapping.Faithful(j.mapping) ==> Mapping.Faithful(t.mapping))
      && Records(t.mapping.history) == Records(j.mapping.history) + MappedBy(j, q, rows)
      && (Looped(j, q, rows).outcome.raised
          || AllSettled(q.adapter, t.sync.listings, t.mapping, KeyOf(q.adapter, q.store), Duplicates(Plain(rows)),
                        rows))
  {
    LoopKeeps(j, q, rows);
    var o, run := Looped(j, q, rows), j.sync.nextRun;
    var c := if o.outcome.raised || q.closingRaises then Fail(run, InterruptedFailed)
             else Complete(run, o.outcome.tally.warnings);
    EndStaysJoined(o.outcome.state, o.mapping, c);
    if !o.outcome.raised {
      LooksStaySettled(q.adapter, o.outcome.state.listings, Next(o.outcome.state, c).listings, o.mapping,
                       KeyOf(q.adapter, q.store),
                       Duplicates(Plain(rows)), rows);
    }
  }

  /** However it ends, a sync keeps both tables' listings the same and the mapping history faithful, and it counts
      exactly the history rows its linkages added. */
  lemma LinkedSyncKeeps(j: Joint, q: Request, rows: seq<SourceRow>)
    requires Reachable(j.sync) && Joined(j.sync, j.mapping) && Titled(q, rows)
    ensures var t := LinkedSynced(j, q, rows);
      && Reachable(t.sync) && Joined(t.sync, t.mapping) && (Mapping.Faithful(j.mapping) ==> Mapping.Faithful(t.mapping))
      && Records(t.mapping.history) == Records(j.mapping.history) + MappedBy(j, q, rows)
  {
    LinkedSyncRefines(j, q, rows);
    SyncSettlesItsRun(j.sync, Resolved(j, q, rows));
    if Loops(j.sync, q) { LoopedSyncKeeps(j, q, rows); } else { UnloopedStaysJoined(j, q); }
  }

  /** When a sync returns, each listing that a usable row means and whose article is a valid SKU is matched to a live
      variant of that SKU or in conflict. */
  lemma ReturnedSyncSettles(j: Joint, q: Request, rows: seq<SourceRow>, i: nat, l: nat)
    requires Reachable(j.sync) && Joined(j.sync, j.mapping) && Titled(q, rows)
    requires Loops(j.sync, q) && Succeeds(j.sync, Resolved(j, q, rows))
    requires i < |rows| && Usable(q.adapter, Plain(rows), i)
    requires InScope(LinkedSynced(j, q, rows).sync.listings, l, KeyOf(q.adapter, q.store))
    requires Concerns(q.adapter, LinkedSynced(j, q, rows).sync.listings, KeyOf(q.adapter, q.store), rows[i].row, l)
    ensures Settled(LinkedSynced(j, q, rows).mapping, l)
  {
    UsableIff(q.adapter, Plain(rows), i);
    ConcernsIff(q.adapter, LinkedSynced(j, q, rows).sync.listings, KeyOf(q.adapter, q.store), rows[i].row, l);
    LinkedSyncRefines(j, q, rows);
    LoopedSyncKeeps(j, q, rows);
  }

  // ---------- runs of syncs and mapping changes ----------

  /** A sync, a mapping change or catalogue edit, or a step of some other sync run; listings come from syncs alone. */
  datatype JointCommand = SyncAll(q: Request, rows: seq<SourceRow>) | Edit(edit: Mapping.Command)
    | Other(other: Command)

  function JointNext(j: Joint, c: JointCommand): Joint {
    match c
    case SyncAll(q, rows) => LinkedSynced(j, q, rows)
    case Edit(edit) =>
      if edit.NewListing? || edit.UpdateListing? then j else j.(mapping := Mapping.Next(j.mapping, edit))
    case Other(other) => if other.Upsert? then j else j.(sync := Next(j.sync, other))
  }

  function JointRun(commands: seq<JointCommand>): Joint {
    if commands == [] then Joint(EMPTY, Mapping.EMPTY)
    else JointNext(JointRun(commands[..|commands| - 1]), commands[|commands| - 1])
  }

  /** Every request brings its rows, and every mapping change works on an up-to-date listing object. */
  ghost predicate Orderly(commands: seq<JointCommand>) {
    commands == []
    || (Orderly(commands[..|commands| - 1])
        && match commands[|commands| - 1]
           case SyncAll(q, rows) => Titled(q, rows)
           case Edit(edit) => Mapping.Fresh(JointRun(commands[..|commands| - 1]).mapping, edit)
           case Other(_) => true)
  }

  /** A sync acts on both sets of tables, a mapping change or catalogue edit on the mapping tables as it does alone, any
      other step on the sync tables as it does alone; only syncs write listings. */
  lemma JointStepMeaning(j: Joint, c: JointCommand)
    ensures c.SyncAll? ==> JointNext(j, c) == LinkedSynced(j, c.q, c.rows)
    ensures c.Edit? ==>
              JointNext(j, c).sync == j.sync
              && JointNext(j, c).mapping == if c.edit.NewListing? || c.edit.UpdateListing? then j.mapping
                                            else Mapping.Next(j.mapping, c.edit)
    ensures c.Other? ==>
              JointNext(j, c).mapping == j.mapping
              && JointNext(j, c).sync == if c.other.Upsert? then j.sync else Next(j.sync, c.other)
  {
  }

  lemma RunExtends(commands: seq<JointCommand>, c: JointCommand)
    ensures JointRun(commands + [c]) == JointNext(JointRun(commands), c)
  {
    assert (commands + [c])[..|commands|] == commands;
  }

  ghost predicate OrderlyAt(commands: seq<JointCommand>, n: nat)
    requires n < |commands|
  {
    && (commands[n].SyncAll? ==> Titled(commands[n].q, commands[n].rows))
    && (commands[n].Edit? ==> Mapping.Fresh(JointRun(commands[..n]).mapping, commands[n].edit))
  }

  lemma {:induction false} OrderlyIff(commands: seq<JointCommand>)
    ensures Orderly(commands) <==> forall n: nat :: n < |commands| ==> OrderlyAt(commands, n)
    decreases |commands|
  {
    if commands != [] {
      var most := commands[..|commands| - 1];
      OrderlyIff(most);
      forall n: nat | n < |most| ensures OrderlyAt(most, n) <==> OrderlyAt(commands, n) {
        assert most[n] == commands[n] && most[..n] == commands[..n];
      }
      assert Orderly(commands) <==> Orderly(most) && OrderlyAt(commands, |most|);
    }
  }

  ghost predicate Together(j: Joint) { Reachable(j.sync) && Joined(j.sync, j.mapping) && Mapping.Faithful(j.mapping) }

  lemma LinkageKeepsArticles(m: Mapping.State, c: Mapping.Command)
    requires c.ApiLink? && Mapping.Step(m, c).Ok?
    ensures WroteAtMostOne(m, Mapping.Step(m, c).value, c.listing)
  {
    LinkageWrites(m, c.listing, c.seen, Sku.ValidApiSku(c.seen.article));
  }

  /** Only source upserts move a listing's article. */
  lemma EditKeepsArticles(m: Mapping.State, c: Mapping.Command)
    requires Mapping.Step(m, c).Ok? && !c.NewListing? && !c.UpdateListing?
    ensures var t := Mapping.Step(m, c).value;
      && t.listings.Keys == m.listings.Keys && t.nextListing == m.nextListing
      && forall l :: l in m.listings ==> t.listings[l].article == m.listings[l].article
  {
    if c.ApiLink? { LinkageKeepsArticles(m, c); }
  }

  lemma EditStaysTogether(j: Joint, c: Mapping.Command)
    requires Together(j) && Mapping.Fresh(j.mapping, c)
    ensures Together(JointNext(j, Edit(c)))
  {
    Mapping.ReachableNext(j.mapping, c);
    if Mapping.Step(j.mapping, c).Ok? && !c.NewListing? && !c.UpdateListing? {
      Mapping.StepStaysFaithful(j.mapping, c);
      EditKeepsArticles(j.mapping, c);
    }
  }

  lemma OtherStaysTogether(j: Joint, c: Command)
    requires Together(j)
    ensures Together(JointNext(j, Other(c)))
  {
    ReachableNext(j.sync, c);
    if c.Start? || c.Complete? || c.Fail? { EndStaysJoined(j.sync, j.mapping, c); }
  }

  lemma StartTogether()
    ensures Together(Joint(EMPTY, Mapping.EMPTY))
  {
    assert ReachedBy(EMPTY, []);
    assert Mapping.ReachedBy(Mapping.EMPTY, []);
  }

  /** Over every run of syncs, mapping changes and other steps the two tables hold the same listings, and the mapping
      history stays faithful. */
  lemma {:induction false} JointRunStaysTogether(commands: seq<JointCommand>)
    requires Orderly(commands)
    ensures Together(JointRun(commands))
  {
    if commands == [] {
      StartTogether();
    } else {
      var j := JointRun(commands[..|commands| - 1]);
      JointRunStaysTogether(commands[..|commands| - 1]);
      match commands[|commands| - 1]
      case SyncAll(q, rows) => LinkedSyncKeeps(j, q, rows);
      case Edit(edit) => EditStaysTogether(j, edit);
      case Other(other) => OtherStaysTogether(j, other);
    }
  }

  // ---------- the loop over both tables ----------

  /** Links the listing through the object just read; a raise leaves the mapping tables as they were. */
  method LinkOneRow(mappings: Mapping.MappingTables, l: nat, row: Row) returns (recorded: Result<bool>)
    requires mappings.Valid()
    modifies mappings
    ensures mappings.Valid()
    ensures var m := old(mappings.Contents()); var r := Linking(m, l, row);
      if r.Raised? then recorded.Raised? && mappings.Contents() == m
      else recorded == Ok(Recorded(m, r.value, l)) && mappings.Contents() == r.value
  {
    if row.fault.AtLink? || l !in mappings.listings { return Raised; }
    var before := if l in mappings.history then Some(|mappings.history[l]|) else None;
    var returned := mappings.ApiLinkListing(l, mappings.listings[l]);
    if !returned { return Raised; }
    return Ok(before.Some? && l in mappings.history && |mappings.history[l]| > before.value);
  }

  method WriteLinkedRow(tables: SyncTables, mappings: Mapping.MappingTables, a: Adapter, key: SyncKey, run: nat,
                        duplicates: set<string>, x: SourceRow, before: Tally)
    returns (tally: Tally, raised: bool)
    requires tables.Valid() && mappings.Valid()
    modifies tables, mappings
    ensures tables.Valid() && mappings.Valid()
    ensures Standing(Outcome(tables.Contents(), tally, raised), mappings.Contents())
         == JointStep(a, key, run, duplicates,
                      Standing(Outcome(old(tables.Contents()), before, false), old(mappings.Contents())), x)
  {
    var skipped := before.(skipped := before.skipped + 1, warnings := before.warnings + 1);
    if Unusable(a, duplicates, x.row) { return skipped, false; }
    var l: nat;
    if a.WbPromotions? {
      var found := Existing(tables.listings, key, x.row);
      if |found| != 1 { return skipped.(missing := skipped.missing + 1), false; }
      l := Min(found);
    } else {
      if x.row.fault.AtUpsert? { return before, true; }
      var known := tables.listings.Keys;
      var listing := tables.UpsertListing(run, x.row.externalId, x.row.ids, x.row.article);
      if listing.Raised? { return before, true; }
      l := listing.value;
      var _ := mappings.UpsertListing(if l in known then Some(l) else None, x.row.article, x.title);
    }
    tally, raised := RecordLinked(tables, mappings, a, run, l, x.row, before);
  }

  /** A row whose linkage returned is recorded as one that says whether a mapping was recorded. */
  lemma LinkedRecords(a: Adapter, run: nat, o: Standing, l: nat, row: Row)
    requires !o.outcome.raised
    ensures var p, r := LinkRow(o, l, row), Linking(o.mapping, l, row);
      if r.Raised? then
        p.mapping == o.mapping
        && Snapped(a, run, p.outcome, l, row)
           == Outcome(o.outcome.state, o.outcome.tally.(listings := o.outcome.tally.listings + 1), true)
      else
        p.mapping == r.value
        && Snapped(a, run, p.outcome, l, row)
           == SyncAdapters.Recorded(a, run, o.outcome, l, row.(linked := Recorded(o.mapping, r.value, l)))
  {
    DecidedSameData(o.mapping, l, row);
    LinkedAlike(o, l, row);
    SnappedAlike(a, run, LinkRow(o, l, row).outcome, l, row, Decided(o.mapping, l, row));
  }

  method RecordLinked(tables: SyncTables, mappings: Mapping.MappingTables, a: Adapter, run: nat, l: nat, row: Row,
                      before: Tally)
    returns (tally: Tally, raised: bool)
    requires tables.Valid() && mappings.Valid()
    modifies tables, mappings
    ensures tables.Valid() && mappings.Valid()
    ensures var linked := LinkRow(Standing(Outcome(old(tables.Contents()), before, false), old(mappings.Contents())), l,
                                  row);
      && Outcome(tables.Contents(), tally, raised) == Snapped(a, run, linked.outcome, l, row)
      && mappings.Contents() == linked.mapping
  {
    LinkedRecords(a, run, Standing(Outcome(tables.Contents(), before, false), mappings.Contents()), l, row);
    var recorded := LinkOneRow(mappings, l, row);
    if recorded.Raised? { return before.(listings := before.listings + 1), true; }
    tally, raised := RecordRow(tables, a, run, l, row.(linked := recorded.value), before);
  }

  lemma RaisedJointStays(a: Adapter, key: SyncKey, run: nat, duplicates: set<string>, o: Standing, rows: seq<SourceRow>,
                         n: nat)
    requires n <= |rows| && JointRows(a, key, run, duplicates, o, rows[..n]).outcome.raised
    ensures JointRows(a, key, run, duplicates, o, rows) == JointRows(a, key, run, duplicates, o, rows[..n])
    decreases |rows|
  {
    if n == |rows| {
      assert rows[..n] == rows;
    } else {
      assert rows[..|rows| - 1][..n] == rows[..n];
      RaisedJointStays(a, key, run, duplicates, o, rows[..|rows| - 1], n);
    }
  }

  method WriteLinkedRows(tables: SyncTables, mappings: Mapping.MappingTables, a: Adapter, key: SyncKey, run: nat,
                         duplicates: set<string>, rows: seq<SourceRow>)
    returns (tally: Tally, raised: bool)
    requires tables.Valid() && mappings.Valid()
    modifies tables, mappings
    ensures tables.Valid() && mappings.Valid()
    ensures Standing(Outcome(tables.Contents(), tally, raised), mappings.Contents())
         == JointRows(a, key, run, duplicates, Beginning(Joint(old(tables.Contents()), old(mappings.Contents()))), rows)
  {
    ghost var o := Beginning(Joint(tables.Contents(), mappings.Contents()));
    tally, raised := NOTHING, false;
    for n := 0 to |rows|
      invariant tables.Valid() && mappings.Valid() && !raised
      invariant Standing(Outcome(tables.Contents(), tally, raised), mappings.Contents())
             == JointRows(a, key, run, duplicates, o, rows[..n])
    {
      assert rows[..n + 1][..n] == rows[..n];
      tally, raised := WriteLinkedRow(tables, mappings, a, key, run, duplicates, rows[n], tally);
      if raised {
        RaisedJointStays(a, key, run, duplicates, o, rows, n + 1);
        return;
      }
    }
    assert rows[..|rows|] == rows;
  }

  /** Everything after a successful start. */
  method LinkAndEnd(tables: SyncTables, mappings: Mapping.MappingTables, q: Request, run: nat, rows: seq<SourceRow>)
    returns (counted: Tally, raised: bool)
    requires tables.Valid() && mappings.Valid()
    modifies tables, mappings
    ensures tables.Valid() && mappings.Valid()
    ensures var o := JointRows(q.adapter, KeyOf(q.adapter, q.store), run, Duplicates(Plain(rows)),
                               Beginning(Joint(old(tables.Contents()), old(mappings.Contents()))), rows);
      && raised == (o.outcome.raised || q.closingRaises) && counted == o.outcome.tally
         && mappings.Contents() == o.mapping
      && tables.Contents() == Next(o.outcome.state, if raised then Fail(run, InterruptedFailed)
                                   else Complete(run, counted.warnings))
  {
    var duplicates := DetectDuplicateArticles(Plain(rows));
    counted, raised := WriteLinkedRows(tables, mappings, q.adapter, KeyOf(q.adapter, q.store), run, duplicates, rows);
    raised := raised || q.closingRaises;
    if raised {
      var _ := tables.FailRun(run, InterruptedFailed);
    } else {
      var _ := tables.CompleteRun(run, counted.warnings);
    }
  }

  /** The adapter with its linkage. */
  method SyncAndLink(tables: SyncTables, mappings: Mapping.MappingTables, q: Request, rows: seq<SourceRow>)
    returns (tally: Result<Tally>)
    requires tables.Valid() && mappings.Valid() && Titled(q, rows)
    modifies tables, mappings
    ensures tables.Valid() && mappings.Valid()
    ensures var j := Joint(old(tables.Contents()), old(mappings.Contents()));
      && Joint(tables.Contents(), mappings.Contents()) == LinkedSynced(j, q, rows)
      && (tally.Ok? <==> Succeeds(j.sync, Resolved(j, q, rows)))
      && (tally.Ok? ==> tally.value.mapped == MappedBy(j, q, rows))
  {
    LinkedSyncRefines(Joint(tables.Contents(), mappings.Contents()), q, rows);
    if (q.adapter.WbPromotions? && q.autoPromotion) || q.rows.None? {
      var report := Sync(tables, q);
      return if report.Ok? then Ok(report.value.tally) else Raised;
    }
    if q.adapter.OzonActions? && !q.groupKnown { return Raised; }
    var run := tables.StartRun(KeyOf(q.adapter, q.store), q.storeMarketplace, q.source);
    if run.Raised? { return Raised; }
    var counted, raised := LinkAndEnd(tables, mappings, q, run.value, rows);
    return if raised then Raised else Ok(counted);
  }
}
