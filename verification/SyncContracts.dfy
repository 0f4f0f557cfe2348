/** What each sync service accepts and writes, in terms of the stored fields alone. */
module SyncContracts {
  import opened Common
  import opened OperationTypes
  import opened Snapshots
  import opened SyncRuns
  import opened SyncAdapters

  // ---------- snapshots ----------

  /** The latest snapshot of a listing has the greatest timestamp, and the greatest id of that timestamp. */
  lemma LatestByFields<T(!new)>(s: seq<Stamped<T>>, listing: nat)
    ensures Latest(s, listing).None? <==> forall i :: 0 <= i < |s| ==> s[i].listing != listing
    ensures Latest(s, listing).Some? ==>
              var last := Latest(s, listing).value;
              last in s && last.listing == listing
              && forall x :: x in s && x.listing == listing ==> x.at < last.at || (x.at == last.at && x.id <= last.id)
  {
    LatestMeaning(s, listing);
    if Latest(s, listing).None? {
      forall i | 0 <= i < |s| ensures s[i].listing != listing { assert s[i] in s; }
    }
    if Latest(s, listing).Some? {
      forall x | x in s && x.listing == listing
        ensures x.at < Latest(s, listing).value.at
                || (x.at == Latest(s, listing).value.at && x.id <= Latest(s, listing).value.id)
      {
        assert !Newer(x, Latest(s, listing).value);
      }
    }
  }

  /** The list of a listing's snapshots goes down in timestamps, and in ids within a timestamp. */
  lemma NewestFirstByFields<T(!new)>(s: seq<Stamped<T>>, listing: nat)
    ensures forall x :: multiset(NewestFirst(s, listing))[x] == if x.listing == listing then multiset(s)[x] else 0
    ensures var n := NewestFirst(s, listing);
      forall i, j :: 0 <= i < j < |n| ==> n[j].at < n[i].at || (n[j].at == n[i].at && n[j].id <= n[i].id)
  {
    NewestFirstMeaning(s, listing);
    var n := NewestFirst(s, listing);
    forall i, j | 0 <= i < j < |n| ensures n[j].at < n[i].at || (n[j].at == n[i].at && n[j].id <= n[i].id) {
      assert !Newer(n[j], n[i]);
    }
  }

  lemma PriceCells(x: Stamped<PriceBody>)
    ensures var c := PriceCache(x);
      && c.Keys == {Price, Currency, PriceSnapshotAt}
                   + (if x.body.withDiscount.Some? then {PriceWithDiscount} else {})
                   + (if x.body.discountPercent.Some? then {DiscountPercent} else {})
      && c[Price] == Text(x.body.price) && c[Currency] == Text(x.body.currency) && c[PriceSnapshotAt] == Time(x.at)
      && (x.body.withDiscount.Some? ==> c[PriceWithDiscount] == Text(x.body.withDiscount.value))
      && (x.body.discountPercent.Some? ==> c[DiscountPercent] == Text(x.body.discountPercent.value))
  {
  }

  lemma StockCells(x: Stamped<StockBody>)
    ensures StockCache(x) == map[TotalStock := Quantity(x.body.total), StockByWarehouse := Text(x.body.byWarehouse),
                                 InWayToClient := Quantity(x.body.toClient),
                                 InWayFromClient := Quantity(x.body.fromClient), StockSnapshotAt := Time(x.at)]
  {
  }

  lemma SalesCells(x: Stamped<SalesBody>)
    ensures var c := SalesCache(x);
      && c.Keys == {SalesPeriodStart, SalesPeriodEnd, OrdersQty, SalesQty, BuyoutQty, ReturnsQty, Currency}
                   + (if x.body.amount.Some? then {SalesAmount} else {})
      && c[SalesPeriodStart] == Time(x.at) && c[SalesPeriodEnd] == Time(x.body.periodEnd)
      && c[OrdersQty] == Quantity(x.body.orders) && c[SalesQty] == Quantity(x.body.sales)
      && c[BuyoutQty] == Quantity(x.body.buyouts) && c[ReturnsQty] == Quantity(x.body.refunds)
      && c[Currency] == Text(x.body.currency)
      && (x.body.amount.Some? ==> c[SalesAmount] == Text(x.body.amount.value))
  {
  }

  ghost function SalesOf(b: Batch, l: nat): Cache {
    if Latest(b.sales, l).Some? then SalesCache(Latest(b.sales, l).value) else map[]
  }

  ghost function StockOf(b: Batch, l: nat): Cache {
    if Latest(b.stocks, l).Some? then StockCache(Latest(b.stocks, l).value) else map[]
  }

  ghost function PriceOf(b: Batch, l: nat): Cache {
    if Latest(b.prices, l).Some? then PriceCache(Latest(b.prices, l).value) else map[]
  }

  /** A key written over has the value of the kind that says it last: promotions, then sales, then stock, then price. */
  lemma OverlayByKind(b: Batch, l: nat, k: CacheKey)
    requires k != Promotions
    ensures var o := Overlay(b, l);
      && (k in o <==> k in SalesOf(b, l) || k in StockOf(b, l) || k in PriceOf(b, l))
      && (k in o ==> o[k] == if k in SalesOf(b, l) then SalesOf(b, l)[k]
                             else if k in StockOf(b, l) then StockOf(b, l)[k] else PriceOf(b, l)[k])
  {
  }

  lemma OverlayPromotions(b: Batch, l: nat)
    ensures Promotions in Overlay(b, l) <==> NewestFirst(b.promotions, l) != []
    ensures Promotions in Overlay(b, l) ==>
              Overlay(b, l)[Promotions] == PromotionList(Bodies(NewestFirst(b.promotions, l)))
  {
    NoPromotionCells(b, l);
    assert Overlay(b, l)
           == (PriceOf(b, l) + (StockOf(b, l) + SalesOf(b, l))) + PromotionsCache(NewestFirst(b.promotions, l));
  }

  lemma NoPromotionCells(b: Batch, l: nat)
    ensures Promotions !in PriceOf(b, l) && Promotions !in StockOf(b, l) && Promotions !in SalesOf(b, l)
  {
  }

  // ---------- runs ----------

  /** A run of a marketplace, store and type starts exactly for a store of that marketplace without an unfinished run of
      them. */
  lemma StartMeaning(s: State, key: SyncKey, storeMarketplace: Marketplace, source: nat)
    ensures var r := Starting(s, key, storeMarketplace, source);
      && (r.Ok? <==>
            && storeMarketplace == key.marketplace
            && forall run :: run in s.runs && s.runs[run].key.marketplace == key.marketplace
                             && s.runs[run].key.store == key.store && s.runs[run].key.syncType == key.syncType ==>
                 s.runs[run].status !in {Created, Running})
      && (r.Ok? ==>
            r.value == s.(runs := s.runs[s.nextRun := SyncRun(key, source, Running)],
                          batches := s.batches[s.nextRun := Batch([], [], [], [])], nextRun := s.nextRun + 1))
  {
    forall run ensures run in ActiveRuns(s.runs, key) <==>
                         run in s.runs && s.runs[run].key == key && s.runs[run].status in {Created, Running} {
    }
  }

  /** A snapshot is attached exactly through an object that shows an unfinished run, to a listing of the run's store and
      marketplace; it is added to the snapshots of its kind. */
  lemma AttachMeaning(s: State, run: nat, handleStatus: RunStatus, listing: nat, snapshot: Snapshot)
    ensures var r := Attaching(s, run, handleStatus, listing, snapshot);
      && (r.Ok? <==>
            && run in s.runs && run in s.batches && listing in s.listings && handleStatus in {Created, Running}
            && s.listings[listing].store == s.runs[run].key.store
            && s.listings[listing].marketplace == s.runs[run].key.marketplace)
      && (r.Ok? ==>
            && r.value == s.(batches := s.batches[run := r.value.batches[run]], nextSnapshot := s.nextSnapshot + 1)
            && var before, after, id := s.batches[run], r.value.batches[run], s.nextSnapshot;
               match snapshot
               case PriceSnapshot(body, at) =>
                 after == before.(prices := before.prices + [Stamped(id, listing, at, body)])
               case StockSnapshot(body, at) =>
                 after == before.(stocks := before.stocks + [Stamped(id, listing, at, body)])
               case SalesSnapshot(body, at) => after
                 == before.(sales := before.sales + [Stamped(id, listing, at, body)])
               case PromotionSnapshot(body) =>
                 after == before.(promotions := before.promotions + [Stamped(id, listing, s.clock, body)]))
  {
  }

  /** The run has a snapshot of the listing. */
  ghost predicate HasSnapshot(b: Batch, l: nat) {
    || (exists x :: x in b.prices && x.listing == l) || (exists x :: x in b.stocks && x.listing == l)
    || (exists x :: x in b.sales && x.listing == l) || (exists x :: x in b.promotions && x.listing == l)
  }

  lemma ListedIff<T(!new)>(s: seq<Stamped<T>>, l: nat)
    ensures l in ListingsOf(s) <==> exists x :: x in s && x.listing == l
  {
    if l in ListingsOf(s) {
      var i :| 0 <= i < |s| && s[i].listing == l;
      assert s[i] in s;
    }
  }

  lemma TouchedIff(b: Batch, l: nat)
    ensures l in Touched(b) <==> HasSnapshot(b, l)
  {
    ListedIff(b.prices, l);
    ListedIff(b.stocks, l);
    ListedIff(b.sales, l);
    ListedIff(b.promotions, l);
  }

  /** Completing ends an unfinished run, with warnings exactly when some were counted, and refreshes exactly the
      listings it has snapshots of: their values, times, last run and last source, and that they are active. */
  lemma CompleteMeaning(s: State, run: nat, warningCount: nat)
    ensures var r := Completing(s, run, warningCount);
      && (r.Ok? <==> run in s.runs && run in s.batches && s.runs[run].status in {Created, Running})
      && (r.Ok? ==>
            var t, b := r.value, s.batches[run];
            && t.runs == s.runs[run := s.runs[run].(
                 status := if warningCount == 0 then CompletedSuccess else CompletedWithWarnings)]
            && t.batches == s.batches && t.listings.Keys == s.listings.Keys
            && forall l :: l in s.listings ==>
                 t.listings[l] == if !HasSnapshot(b, l) then s.listings[l]
                                  else s.listings[l].(
                                    values := s.listings[l].values + Overlay(b, l), active := true,
                                    firstSeen := if s.listings[l].firstSeen.None? then Some(s.clock)
                                                 else s.listings[l].firstSeen,
                                    lastSeen := Some(s.clock), lastSuccess := Some(s.clock), lastRun := Some(run),
                                    lastSource := s.runs[run].source))
  {
    if run in s.batches { forall l { TouchedIff(s.batches[run], l); } }
  }

  lemma FailMeaning(s: State, run: nat, status: RunStatus)
    ensures var r := Failing(s, run, status);
      && (r.Ok? <==> status in {CompletedWithError, InterruptedFailed} && run in s.runs
                     && s.runs[run].status in {Created, Running})
      && (r.Ok? ==> r.value == s.(runs := s.runs[run := s.runs[run].(status := status)]))
  {
  }

  /** The listing of the run's store and marketplace with the external id. */
  ghost predicate Identified(s: State, run: nat, externalId: string, l: nat)
    requires run in s.runs
  {
    l in s.listings && s.listings[l].store == s.runs[run].key.store
    && s.listings[l].marketplace == s.runs[run].key.marketplace && s.listings[l].externalId == externalId
  }

  /** An upsert needs an external id; it writes ids, article, source and activity of the listing that has it, or creates
      one without a cache. */
  lemma UpsertMeaning(s: State, run: nat, externalId: string, ids: ExternalIds, article: string)
    requires Inv(s)
    ensures var r := Upserting(s, run, externalId, ids, article);
      && (r.Ok? <==> run in s.runs && externalId != "")
      && (r.Ok? ==>
            && (forall l :: Identified(s, run, externalId, l) ==>
                  r.value == s.(listings := s.listings[l := s.listings[l].(
                    ids := ids, article := article, active := true, lastSource := s.runs[run].source)]))
            && ((forall l :: !Identified(s, run, externalId, l)) ==>
                  r.value == s.(listings := s.listings[s.nextListing :=
                                  Listing(s.runs[run].key.store, s.runs[run].key.marketplace, externalId, ids, article,
                                          true,
                                          map[], None, None, None, None, s.runs[run].source)],
                                nextListing := s.nextListing + 1)))
  {
    if run in s.runs && externalId != "" {
      var found := Matching(s.listings, s.runs[run].key, externalId);
      forall l ensures l in found <==> Identified(s, run, externalId, l) {
      }
      forall l: nat | Identified(s, run, externalId, l) ensures found == {l} {
        assert forall k :: k in found ==> k == l;
      }
    }
  }

  // ---------- adapters ----------

  /** The marketplace and kind of sync of each adapter, for the store of the request. */
  lemma KeyMeaning(store: nat)
    ensures KeyOf(WbPrices, store) == SyncKey(Wb, store, Prices)
    ensures KeyOf(WbPromotions, store) == SyncKey(Wb, store, PromotionRows)
    ensures KeyOf(OzonActions, store) == SyncKey(Ozon, store, PromotionRows)
    ensures KeyOf(OzonStocks, store) == SyncKey(Ozon, store, Stocks)
  {
  }

  /** The rows whose article another row has too. */
  ghost function Repeated(rows: seq<Row>): set<nat> {
    set i | 0 <= i < |rows| && rows[i].article != ""
            && exists j :: 0 <= j < |rows| && j != i && rows[j].article == rows[i].article
  }

  ghost function InDuplicates(rows: seq<Row>, duplicates: set<string>): set<nat> {
    set i | 0 <= i < |rows| && rows[i].article in duplicates
  }

  lemma {:induction false} AffectedCount(rows: seq<Row>, duplicates: set<string>)
    ensures Affected(rows, duplicates) == |InDuplicates(rows, duplicates)|
  {
    if rows == [] {
      assert InDuplicates(rows, duplicates) == {};
    } else {
      var most, n := rows[..|rows| - 1], |rows| - 1;
      AffectedCount(most, duplicates);
      if rows[n].article in duplicates {
        assert InDuplicates(rows, duplicates) == InDuplicates(most, duplicates) + {n};
      } else {
        assert InDuplicates(rows, duplicates) == InDuplicates(most, duplicates);
      }
    }
  }

  /** A report counts as affected exactly those. */
  lemma AffectedMeaning(rows: seq<Row>)
    ensures Affected(rows, Duplicates(rows)) == |Repeated(rows)|
  {
    AffectedCount(rows, Duplicates(rows));
    forall i | 0 <= i < |rows| ensures i in InDuplicates(rows, Duplicates(rows)) <==> i in Repeated(rows) {
      RepeatedIff(rows, i);
    }
    assert InDuplicates(rows, Duplicates(rows)) == Repeated(rows);
  }

  /** Which adapter starts a run: any for a store of its marketplace without one of its kind, and for Ozon actions only
      when the group is known. */
  lemma StartsMeaning(s: State, q: Request)
    ensures Starts(s, q) <==>
              && (q.adapter == OzonActions ==> q.groupKnown)
              && q.storeMarketplace == (if q.adapter in {WbPrices, WbPromotions} then Wb else Ozon)
              && forall run :: run in s.runs && s.runs[run].key == KeyOf(q.adapter, q.store) ==>
                   s.runs[run].status !in {Created, Running}
  {
    StartMeaning(s, KeyOf(q.adapter, q.store), q.storeMarketplace, q.source);
  }
}
