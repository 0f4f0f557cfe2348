/** Marketplace sync runs: start, snapshots, completion into the per-listing cache, failure, listing upserts. */
module SyncRuns {
  import opened Common
  import opened OperationTypes
  import opened Snapshots

  datatype SyncType = Listings | Prices | Stocks | Sales | Orders | PromotionRows | FullCatalogRefresh | MappingImport

  datatype RunStatus = Created | Running | CompletedSuccess | CompletedWithWarnings | CompletedWithError
    | InterruptedFailed

  datatype SyncKey = SyncKey(marketplace: Marketplace, store: nat, syncType: SyncType)

  datatype SyncRun = SyncRun(key: SyncKey, source: nat, status: RunStatus)

  /** The two external ids a promotion row is looked up by; the others do not matter here. */
  datatype ExternalIds = ExternalIds(nmId: Option<string>, vendorCode: Option<string>)

  datatype Listing = Listing(store: nat, marketplace: Marketplace, externalId: string, ids: ExternalIds,
                             article: string, active: bool, values: Cache, firstSeen: Option<nat>,
                             lastSeen: Option<nat>, lastSuccess: Option<nat>, lastRun: Option<nat>, lastSource: nat)

  datatype Snapshot = PriceSnapshot(price: PriceBody, at: nat) | StockSnapshot(stock: StockBody, at: nat)
                    | SalesSnapshot(sales: SalesBody, at: nat) | PromotionSnapshot(promotion: PromotionBody)

  /** History: a completed run with the snapshots it had when it completed. */
  datatype Completion = Completion(run: nat, at: nat, batch: Batch)

  datatype State = State(runs: map<nat, SyncRun>, batches: map<nat, Batch>, listings: map<nat, Listing>,
                         nextRun: nat, nextListing: nat, nextSnapshot: nat, clock: nat, log: seq<Completion>)

  datatype Command =
    | Start(key: SyncKey, storeMarketplace: Marketplace, source: nat)
    | Attach(run: nat, handleStatus: RunStatus, listing: nat, snapshot: Snapshot)
    | Complete(run: nat, warningCount: nat)
    | Fail(run: nat, status: RunStatus)
    | Upsert(run: nat, externalId: string, ids: ExternalIds, article: string)

  predicate Active(status: RunStatus) { status == Created || status == Running }

  predicate Completed(status: RunStatus) { status == CompletedSuccess || status == CompletedWithWarnings }

  // ---------- steps ----------

  function ActiveRuns(runs: map<nat, SyncRun>, key: SyncKey): set<nat> {
    set r | r in runs && runs[r].key == key && Active(runs[r].status)
  }

  function Starting(s: State, key: SyncKey, storeMarketplace: Marketplace, source: nat): Result<State> {
    if storeMarketplace != key.marketplace || ActiveRuns(s.runs, key) != {} then Raised
    else Ok(s.(runs := s.runs[s.nextRun := SyncRun(key, source, Running)],
               batches := s.batches[s.nextRun := NO_SNAPSHOTS],
               nextRun := s.nextRun + 1))
  }

  function Added(b: Batch, id: nat, listing: nat, snapshot: Snapshot, now: nat): Batch {
    match snapshot
    case PriceSnapshot(body, at) => b.(prices := b.prices + [Stamped(id, listing, at, body)])
    case StockSnapshot(body, at) => b.(stocks := b.stocks + [Stamped(id, listing, at, body)])
    case SalesSnapshot(body, at) => b.(sales := b.sales + [Stamped(id, listing, at, body)])
    case PromotionSnapshot(body) => b.(promotions := b.promotions + [Stamped(id, listing, now, body)])
  }

  /** The status checked is the one of the caller's run object, which a completion does not update. */
  predicate CanAttach(s: State, run: nat, handleStatus: RunStatus, listing: nat) {
    && run in s.runs && run in s.batches && listing in s.listings && Active(handleStatus)
    && s.listings[listing].store == s.runs[run].key.store
    && s.listings[listing].marketplace == s.runs[run].key.marketplace
  }

  function Attaching(s: State, run: nat, handleStatus: RunStatus, listing: nat, snapshot: Snapshot): Result<State> {
    if !CanAttach(s, run, handleStatus, listing) then Raised
    else Ok(s.(batches := s.batches[run := Added(s.batches[run], s.nextSnapshot, listing, snapshot, s.clock)],
               nextSnapshot := s.nextSnapshot + 1))
  }

  function Refreshed(l: Listing, overlay: Cache, run: nat, source: nat, at: nat): Listing {
    l.(values := l.values + overlay, active := true, firstSeen := if l.firstSeen.Some? then l.firstSeen else Some(at),
       lastSeen := Some(at), lastSuccess := Some(at), lastRun := Some(run), lastSource := source)
  }

  /** The cache after a run's snapshots have been applied to the given listings. */
  function Applied(listings: map<nat, Listing>, ids: set<nat>, b: Batch, run: nat, source: nat,
                   at: nat): map<nat, Listing> {
    map l | l in listings :: if l in ids then Refreshed(listings[l], Overlay(b, l), run, source, at) else listings[l]
  }

  function MarkedCompleted(s: State, run: nat, warningCount: nat): State
    requires run in s.runs && run in s.batches
  {
    var status := if warningCount > 0 then CompletedWithWarnings else CompletedSuccess;
    var b := s.batches[run];
    s.(runs := s.runs[run := s.runs[run].(status := status)],
       listings := Applied(s.listings, Touched(b), b, run, s.runs[run].source, s.clock),
       log := s.log + [Completion(run, s.clock, b)])
  }

  function Completing(s: State, run: nat, warningCount: nat): Result<State> {
    if run !in s.runs || run !in s.batches || !Active(s.runs[run].status) then Raised
    else Ok(MarkedCompleted(s, run, warningCount))
  }

  function Failing(s: State, run: nat, status: RunStatus): Result<State> {
    if (status != CompletedWithError && status != InterruptedFailed) || run !in s.runs || !Active(s.runs[run].status)
      then Raised
    else Ok(s.(runs := s.runs[run := s.runs[run].(status := status)]))
  }

  function Matching(listings: map<nat, Listing>, key: SyncKey, externalId: string): set<nat> {
    set l | l in listings && listings[l].store == key.store && listings[l].marketplace == key.marketplace
            && listings[l].externalId == externalId
  }

  function Upserting(s: State, run: nat, externalId: string, ids: ExternalIds, article: string): Result<State> {
    if run !in s.runs || externalId == "" then Raised
    else
      var r := s.runs[run];
      var found := Matching(s.listings, r.key, externalId);
      if found == {} then
        Ok(s.(listings := s.listings[s.nextListing := Listing(r.key.store, r.key.marketplace, externalId, ids, article,
                                                              true, map[], None, None, None, None, r.source)],
              nextListing := s.nextListing + 1))
      else
        var l := Min(found);
        Ok(s.(listings := s.listings[l := s.listings[l].(ids := ids, article := article, active := true,
                                                         lastSource := r.source)]))
  }

  /** The listing an upsert writes. */
  function Upserted(s: State, run: nat, externalId: string): nat
    requires run in s.runs
  {
    var found := Matching(s.listings, s.runs[run].key, externalId);
    if found == {} then s.nextListing else Min(found)
  }

  function Step(s: State, c: Command): Result<State> {
    match c
    case Start(key, market, source) => Starting(s, key, market, source)
    case Attach(run, handleStatus, listing, snapshot) => Attaching(s, run, handleStatus, listing, snapshot)
    case Complete(run, warnings) => Completing(s, run, warnings)
    case Fail(run, status) => Failing(s, run, status)
    case Upsert(run, externalId, ids, article) => Upserting(s, run, externalId, ids, article)
  }

  /** A raised step is rolled back; time passes either way. */
  function Next(s: State, c: Command): State {
    var r := Step(s, c);
    (if r.Ok? then r.value else s).(clock := s.clock + 1)
  }

  function Run(s: State, commands: seq<Command>): State
    decreases |commands|
  {
    if commands == [] then s else Next(Run(s, commands[..|commands| - 1]), commands[|commands| - 1])
  }

  const EMPTY := State(map[], map[], map[], 1, 1, 1, 0, [])

  // ---------- the cache as a fold over completions ----------

  datatype Cached = Cached(values: Cache, lastRun: Option<nat>, lastSuccess: Option<nat>)

  function CachedOf(l: Listing): Cached { Cached(l.values, l.lastRun, l.lastSuccess) }

  /** Left fold over completed runs in completion order, independent of runs that failed or are still active. */
  function Replay(log: seq<Completion>, listing: nat): Cached {
    if log == [] then Cached(map[], None, None)
    else
      var before, e := Replay(log[..|log| - 1], listing), log[|log| - 1];
      if listing in Touched(e.batch) then Cached(before.values + Overlay(e.batch, listing), Some(e.run), Some(e.at))
      else before
  }

  lemma {:induction false} UntouchedReplay(log: seq<Completion>, listing: nat)
    requires forall i :: 0 <= i < |log| ==> listing !in Touched(log[i].batch)
    ensures Replay(log, listing) == Cached(map[], None, None)
  {
    if log != [] { UntouchedReplay(log[..|log| - 1], listing); }
  }

  lemma {:induction false} ReplayedRunIsLogged(log: seq<Completion>, listing: nat)
    ensures Replay(log, listing).lastRun.Some? ==>
              exists i :: 0 <= i < |log| && log[i].run == Replay(log, listing).lastRun.value
  {
    if log != [] {
      ReplayedRunIsLogged(log[..|log| - 1], listing);
      assert log[|log| - 1].run == log[|log| - 1].run;
    }
  }

  // ---------- what every run of commands keeps ----------

  ghost predicate OneActivePerKey(runs: map<nat, SyncRun>) {
    forall a, b :: a in runs && b in runs && a != b && Active(runs[a].status) && Active(runs[b].status) ==>
                     runs[a].key != runs[b].key
  }

  ghost predicate InScope(listings: map<nat, Listing>, l: nat, key: SyncKey) {
    l in listings && listings[l].store == key.store && listings[l].marketplace == key.marketplace
  }

  /** A run's snapshots are of listings of its own store and marketplace. */
  ghost predicate ScopedIn(runs: map<nat, SyncRun>, batches: map<nat, Batch>, listings: map<nat, Listing>) {
    forall r, l :: r in runs && r in batches && l in Touched(batches[r]) ==> InScope(listings, l, runs[r].key)
  }

  ghost predicate Scoped(s: State) { ScopedIn(s.runs, s.batches, s.listings) }

  /** Every listing keeps its store, marketplace and external id. */
  ghost predicate SamePlaces(before: map<nat, Listing>, after: map<nat, Listing>) {
    forall l :: l in before ==>
        l in after && after[l].store == before[l].store && after[l].marketplace == before[l].marketplace
                                && after[l].externalId == before[l].externalId
  }

  ghost predicate SameKeys(before: map<nat, SyncRun>, after: map<nat, SyncRun>) {
    forall r :: r in after ==> r in before && after[r].key == before[r].key
  }

  lemma ScopedStays(runs: map<nat, SyncRun>, batches: map<nat, Batch>, listings: map<nat, Listing>,
                    runs': map<nat, SyncRun>, listings': map<nat, Listing>)
    requires ScopedIn(runs, batches, listings) && SameKeys(runs, runs') && SamePlaces(listings, listings')
    ensures ScopedIn(runs', batches, listings')
  {
    forall r, l | r in runs' && r in batches && l in Touched(batches[r]) ensures InScope(listings', l, runs'[r].key) {
      assert InScope(listings, l, runs[r].key);
    }
  }

  lemma BatchInListings(runs: map<nat, SyncRun>, batches: map<nat, Batch>, listings: map<nat, Listing>, run: nat)
    requires ScopedIn(runs, batches, listings) && run in runs && run in batches
    ensures Touched(batches[run]) <= listings.Keys
  {
    forall l | l in Touched(batches[run]) ensures l in listings { assert InScope(listings, l, runs[run].key); }
  }

  ghost predicate Shaped(s: State) {
    && s.batches.Keys == s.runs.Keys
    && (forall r :: r in s.runs ==> r < s.nextRun)
    && forall l :: l in s.listings ==> l < s.nextListing
  }

  ghost predicate InLog(log: seq<Completion>, run: nat) { exists i :: 0 <= i < |log| && log[i].run == run }

  /** The log holds each completed run once. */
  ghost predicate Logged(runs: map<nat, SyncRun>, log: seq<Completion>) {
    && (forall r :: InLog(log, r) <==> r in runs && Completed(runs[r].status))
    && (forall i, j :: 0 <= i < j < |log| ==> log[i].run != log[j].run)
  }

  ghost predicate LogInListings(s: State) {
    forall i, l :: 0 <= i < |s.log| && l in Touched(s.log[i].batch) ==> l in s.listings
  }

  ghost predicate CacheMatches(listings: map<nat, Listing>, log: seq<Completion>) {
    forall l :: l in listings ==> CachedOf(listings[l]) == Replay(log, l)
  }

  /** At most one listing per marketplace, store and external id. */
  ghost predicate UniqueListings(listings: map<nat, Listing>) {
    forall a, b :: a in listings && b in listings && a != b ==>
      listings[a].store != listings[b].store || listings[a].marketplace != listings[b].marketplace
      || listings[a].externalId != listings[b].externalId
  }

  ghost predicate Inv(s: State) {
    Shaped(s) && UniqueListings(s.listings) && Scoped(s) && OneActivePerKey(s.runs) && Logged(s.runs, s.log)
      && LogInListings(s) && CacheMatches(s.listings, s.log)
  }

  lemma StartKeepsInv(s: State, key: SyncKey, market: Marketplace, source: nat)
    requires Inv(s) && Starting(s, key, market, source).Ok?
    ensures Inv(Starting(s, key, market, source).value)
  {
    var t := Starting(s, key, market, source).value;
    assert Touched(NO_SNAPSHOTS) == {};
    assert Scoped(t) by {
      forall r, l | r in t.runs && r in t.batches && l in Touched(t.batches[r])
        ensures InScope(t.listings, l, t.runs[r].key) {
        assert InScope(s.listings, l, s.runs[r].key);
      }
    }
    assert OneActivePerKey(t.runs) by {
      assert forall r :: r in s.runs && Active(s.runs[r].status) && s.runs[r].key == key ==>
               r in ActiveRuns(s.runs, key);
    }
  }

  lemma AddedTouches(b: Batch, id: nat, listing: nat, snapshot: Snapshot, now: nat)
    ensures Touched(Added(b, id, listing, snapshot, now)) == Touched(b) + {listing}
  {
    ListingsSnoc(b.prices, if snapshot.PriceSnapshot? then Some(Stamped(id, listing, snapshot.at, snapshot.price))
                 else None);
    ListingsSnoc(b.stocks, if snapshot.StockSnapshot? then Some(Stamped(id, listing, snapshot.at, snapshot.stock))
                 else None);
    ListingsSnoc(b.sales, if snapshot.SalesSnapshot? then Some(Stamped(id, listing, snapshot.at, snapshot.sales))
                 else None);
    ListingsSnoc(b.promotions, if snapshot.PromotionSnapshot? then Some(Stamped(id, listing, now, snapshot.promotion))
                 else None);
  }

  lemma ListingsSnoc<T>(s: seq<Stamped<T>>, x: Option<Stamped<T>>)
    ensures x.Some? ==> ListingsOf(s + [x.value]) == ListingsOf(s) + {x.value.listing}
  {
    if x.Some? {
      var t := s + [x.value];
      assert forall i :: 0 <= i < |s| ==> t[i] == s[i];
      assert t[|s|] == x.value;
    }
  }

  lemma AttachKeepsInv(s: State, run: nat, handleStatus: RunStatus, listing: nat, snapshot: Snapshot)
    requires Inv(s) && Attaching(s, run, handleStatus, listing, snapshot).Ok?
    ensures Inv(Attaching(s, run, handleStatus, listing, snapshot).value)
  {
    var t := Attaching(s, run, handleStatus, listing, snapshot).value;
    AddedTouches(s.batches[run], s.nextSnapshot, listing, snapshot, s.clock);
    assert Scoped(t) by {
      forall r, l | r in t.runs && r in t.batches && l in Touched(t.batches[r])
        ensures InScope(t.listings, l, t.runs[r].key) {
        assert l in Touched(s.batches[r]) ==> InScope(s.listings, l, s.runs[r].key);
      }
    }
  }

  lemma InLogSnoc(log: seq<Completion>, e: Completion, run: nat)
    ensures InLog(log + [e], run) <==> InLog(log, run) || run == e.run
  {
    var t := log + [e];
    assert t[|log|] == e;
    if InLog(log, run) {
      var i :| 0 <= i < |log| && log[i].run == run;
      assert t[i].run == run;
    }
  }

  /** Moving an active run to another status, with an unchanged log for a failure and one more entry for a
      completion. */
  lemma StatusKeepsLogged(runs: map<nat, SyncRun>, log: seq<Completion>, e: Completion, status: RunStatus)
    requires Logged(runs, log) && e.run in runs && Active(runs[e.run].status) && !Active(status)
    ensures Logged(runs[e.run := runs[e.run].(status := status)], if Completed(status) then log + [e] else log)
  {
    forall r ensures InLog(log + [e], r) <==> InLog(log, r) || r == e.run { InLogSnoc(log, e, r); }
    assert forall i :: 0 <= i < |log| ==> InLog(log, log[i].run);
  }

  lemma AppliedPlaces(listings: map<nat, Listing>, ids: set<nat>, b: Batch, run: nat, source: nat, at: nat)
    ensures SamePlaces(listings, Applied(listings, ids, b, run, source, at))
    ensures Applied(listings, ids, b, run, source, at).Keys == listings.Keys
  {
  }

  lemma AppliedCache(listings: map<nat, Listing>, log: seq<Completion>, e: Completion, source: nat)
    requires CacheMatches(listings, log)
    ensures CacheMatches(Applied(listings, Touched(e.batch), e.batch, e.run, source, e.at), log + [e])
  {
    var t := log + [e];
    assert t[..|t| - 1] == log;
    forall l | l in listings
      ensures CachedOf(Applied(listings, Touched(e.batch), e.batch, e.run, source, e.at)[l]) == Replay(t, l)
    {
      assert CachedOf(listings[l]) == Replay(log, l);
    }
  }

  lemma StatusKeepsKeys(runs: map<nat, SyncRun>, run: nat, status: RunStatus)
    requires run in runs
    ensures SameKeys(runs, runs[run := runs[run].(status := status)])
  {
  }

  lemma CompleteKeepsScope(s: State, run: nat, warnings: nat)
    requires Scoped(s) && LogInListings(s) && Completing(s, run, warnings).Ok?
    ensures Scoped(Completing(s, run, warnings).value) && LogInListings(Completing(s, run, warnings).value)
  {
    var t, b := Completing(s, run, warnings).value, s.batches[run];
    AppliedPlaces(s.listings, Touched(b), b, run, s.runs[run].source, s.clock);
    StatusKeepsKeys(s.runs, run, t.runs[run].status);
    ScopedStays(s.runs, s.batches, s.listings, t.runs, t.listings);
    BatchInListings(s.runs, s.batches, s.listings, run);
  }

  lemma CompleteKeepsInv(s: State, run: nat, warnings: nat)
    requires Inv(s) && Completing(s, run, warnings).Ok?
    ensures Inv(Completing(s, run, warnings).value)
  {
    var e := Completion(run, s.clock, s.batches[run]);
    CompleteKeepsScope(s, run, warnings);
    StatusKeepsLogged(s.runs, s.log, e, if warnings > 0 then CompletedWithWarnings else CompletedSuccess);
    AppliedCache(s.listings, s.log, e, s.runs[run].source);
  }

  lemma FailKeepsInv(s: State, run: nat, status: RunStatus)
    requires Inv(s) && Failing(s, run, status).Ok?
    ensures Inv(Failing(s, run, status).value)
  {
    var t := Failing(s, run, status).value;
    StatusKeepsLogged(s.runs, s.log, Completion(run, s.clock, s.batches[run]), status);
    StatusKeepsKeys(s.runs, run, status);
    ScopedStays(s.runs, s.batches, s.listings, t.runs, t.listings);
  }

  /** A new listing starts with an empty cache and no completion mentions it yet. */
  lemma NewListingCache(s: State, l: Listing)
    requires Shaped(s) && LogInListings(s) && CacheMatches(s.listings, s.log)
    requires CachedOf(l) == Cached(map[], None, None)
    ensures CacheMatches(s.listings[s.nextListing := l], s.log)
  {
    forall i | 0 <= i < |s.log| ensures s.nextListing !in Touched(s.log[i].batch) {
      assert s.nextListing in Touched(s.log[i].batch) ==> s.nextListing in s.listings;
    }
    UntouchedReplay(s.log, s.nextListing);
  }

  lemma UpsertKeepsUnique(s: State, run: nat, externalId: string, ids: ExternalIds, article: string)
    requires UniqueListings(s.listings) && Upserting(s, run, externalId, ids, article).Ok?
    ensures UniqueListings(Upserting(s, run, externalId, ids, article).value.listings)
  {
    var key := s.runs[run].key;
    forall l | l in s.listings && s.listings[l].store == key.store && s.listings[l].marketplace == key.marketplace
      ensures s.listings[l].externalId == externalId ==> l in Matching(s.listings, key, externalId) {
    }
  }

  lemma UpsertKeepsScope(s: State, run: nat, externalId: string, ids: ExternalIds, article: string)
    requires Shaped(s) && Scoped(s) && Upserting(s, run, externalId, ids, article).Ok?
    ensures Scoped(Upserting(s, run, externalId, ids, article).value)
  {
    var t := Upserting(s, run, externalId, ids, article).value;
    ScopedStays(s.runs, s.batches, s.listings, t.runs, t.listings);
  }

  lemma UpsertKeepsInv(s: State, run: nat, externalId: string, ids: ExternalIds, article: string)
    requires Inv(s) && Upserting(s, run, externalId, ids, article).Ok?
    ensures Inv(Upserting(s, run, externalId, ids, article).value)
  {
    UpsertKeepsUnique(s, run, externalId, ids, article);
    UpsertKeepsScope(s, run, externalId, ids, article);
    var t, key := Upserting(s, run, externalId, ids, article).value, s.runs[run].key;
    if Matching(s.listings, key, externalId) == {} {
      NewListingCache(s, t.listings[s.nextListing]);
    }
  }

  lemma StepKeepsInv(s: State, c: Command)
    requires Inv(s) && Step(s, c).Ok?
    ensures Inv(Step(s, c).value)
  {
    match c
    case Start(key, market, source) => StartKeepsInv(s, key, market, source);
    case Attach(run, handleStatus, listing, snapshot) => AttachKeepsInv(s, run, handleStatus, listing, snapshot);
    case Complete(run, warnings) => CompleteKeepsInv(s, run, warnings);
    case Fail(run, status) => FailKeepsInv(s, run, status);
    case Upsert(run, externalId, ids, article) => UpsertKeepsInv(s, run, externalId, ids, article);
  }

  lemma Ticked(s: State, clock: nat)
    requires Inv(s)
    ensures Inv(s.(clock := clock))
  {
  }

  lemma NextKeepsInv(s: State, c: Command)
    requires Inv(s)
    ensures Inv(Next(s, c))
  {
    var r := Step(s, c);
    if r.Ok? {
      StepKeepsInv(s, c);
      Ticked(r.value, s.clock + 1);
    } else {
      Ticked(s, s.clock + 1);
    }
  }

  lemma {:induction false} RunKeepsInv(commands: seq<Command>)
    ensures Inv(Run(EMPTY, commands))
    decreases |commands|
  {
    if commands != [] {
      RunKeepsInv(commands[..|commands| - 1]);
      NextKeepsInv(Run(EMPTY, commands[..|commands| - 1]), commands[|commands| - 1]);
    }
  }

  ghost predicate ReachedBy(s: State, commands: seq<Command>) { s == Run(EMPTY, commands) }

  ghost predicate Reachable(s: State) { exists commands :: ReachedBy(s, commands) }

  lemma ReachableInv(s: State)
    requires Reachable(s)
    ensures Inv(s)
  {
    var commands :| ReachedBy(s, commands);
    RunKeepsInv(commands);
  }

  lemma ReachableNext(s: State, c: Command)
    requires Reachable(s)
    ensures Reachable(Next(s, c))
  {
    var commands :| ReachedBy(s, commands);
    assert (commands + [c])[..|commands|] == commands;
    assert ReachedBy(Next(s, c), commands + [c]);
  }

  /** At most one run of a key is active in any reachable state. */
  lemma AtMostOneActive(commands: seq<Command>, key: SyncKey)
    ensures |ActiveRuns(Run(EMPTY, commands).runs, key)| <= 1
  {
    RunKeepsInv(commands);
    var active := ActiveRuns(Run(EMPTY, commands).runs, key);
    if active != {} {
      var r := Min(active);
      assert active - {r} == {};
      assert active == {r};
    }
  }

  /** In every reachable state the cached values, last run and last success of a listing are the fold over the completed
      runs, and the last run is one of them. */
  lemma CacheIsFoldOfCompletions(commands: seq<Command>, listing: nat)
    requires listing in Run(EMPTY, commands).listings
    ensures var s := Run(EMPTY, commands); var l := s.listings[listing];
      && CachedOf(l) == Replay(s.log, listing)
      && (l.lastRun.Some? ==> l.lastRun.value in s.runs && Completed(s.runs[l.lastRun.value].status))
  {
    RunKeepsInv(commands);
    ReplayedRunIsLogged(Run(EMPTY, commands).log, listing);
  }

  /** Only a completion moves a cache: every other step, successful or not, leaves every listing's cached part alone. */
  lemma OnlyCompletionMovesCache(s: State, c: Command, listing: nat)
    requires Inv(s) && listing in s.listings && (Step(s, c).Raised? || !c.Complete?)
    ensures listing in Next(s, c).listings && CachedOf(Next(s, c).listings[listing]) == CachedOf(s.listings[listing])
    ensures Next(s, c).log == s.log
  {
  }

  /** Seen times move together, never before the first one. */
  ghost predicate SeenInOrder(l: Listing, now: nat) {
    && l.lastSeen == l.lastSuccess && (l.firstSeen.Some? <==> l.lastSeen.Some?)
    && (l.lastSeen.Some? ==> l.firstSeen.value <= l.lastSeen.value < now)
  }

  ghost predicate AllSeenInOrder(s: State) { forall l :: l in s.listings ==> SeenInOrder(s.listings[l], s.clock) }

  lemma NextKeepsSeen(s: State, c: Command)
    requires AllSeenInOrder(s)
    ensures AllSeenInOrder(Next(s, c))
  {
  }

  /** A listing is first seen once, at its first completed run; from then on the last times are never earlier. */
  lemma {:induction false} FirstSeenIsFixed(commands: seq<Command>, c: Command, listing: nat)
    ensures AllSeenInOrder(Run(EMPTY, commands))
    ensures var s := Run(EMPTY, commands);
      listing in s.listings && s.listings[listing].firstSeen.Some? ==>
        listing in Next(s, c).listings && Next(s, c).listings[listing].firstSeen == s.listings[listing].firstSeen
    decreases |commands|
  {
    RunKeepsInv(commands);
    if commands != [] {
      var most, last := commands[..|commands| - 1], commands[|commands| - 1];
      FirstSeenIsFixed(most, last, listing);
      NextKeepsSeen(Run(EMPTY, most), last);
    }
  }

  // ---------- stored snapshots against those applied ----------

  /** Every completed run's stored snapshots are those its completion applied. */
  ghost predicate StoreMatchesLog(s: State) {
    forall i :: 0 <= i < |s.log| && s.log[i].run in s.batches ==> s.batches[s.log[i].run] == s.log[i].batch
  }

  lemma AddedDiffers(b: Batch, id: nat, listing: nat, snapshot: Snapshot, now: nat)
    ensures Added(b, id, listing, snapshot, now) != b
  {
    assert |Added(b, id, listing, snapshot, now).prices| + |Added(b, id, listing, snapshot, now).stocks|
           + |Added(b, id, listing, snapshot, now).sales| + |Added(b, id, listing, snapshot, now).promotions|
        == |b.prices| + |b.stocks| + |b.sales| + |b.promotions| + 1;
  }

  /** A successful attachment keeps them so exactly when the stored run is not a completed one, whatever the handle
      says. */
  lemma AttachKeepsMatchIff(commands: seq<Command>, run: nat, handleStatus: RunStatus, listing: nat, snapshot: Snapshot)
    requires var s := Run(EMPTY, commands);
      StoreMatchesLog(s) && CanAttach(s, run, handleStatus, listing)
    ensures var s := Run(EMPTY, commands);
      StoreMatchesLog(Next(s, Attach(run, handleStatus, listing, snapshot))) <==> !Completed(s.runs[run].status)
  {
    RunKeepsInv(commands);
    var s := Run(EMPTY, commands);
    var t := Next(s, Attach(run, handleStatus, listing, snapshot));
    AddedDiffers(s.batches[run], s.nextSnapshot, listing, snapshot, s.clock);
    if Completed(s.runs[run].status) {
      var i :| 0 <= i < |s.log| && s.log[i].run == run;
      assert t.log[i].run in t.batches && t.batches[run] != t.log[i].batch;
    }
  }

  lemma OtherStepsKeepMatch(s: State, c: Command)
    requires Inv(s) && StoreMatchesLog(s) && !c.Attach?
    ensures StoreMatchesLog(Next(s, c))
  {
  }

  /** The handle a start returned is still "running" after its run completed, so such an attachment is accepted. */
  lemma StaleHandleExample(body: PriceBody, ids: ExternalIds)
    ensures var key := SyncKey(Wb, 1, Prices);
      var s := Next(Next(Next(EMPTY, Start(key, Wb, 5)), Upsert(1, "7", ids, "a")), Complete(1, 0));
      var t := Next(s, Attach(1, Running, 1, PriceSnapshot(body, 3)));
      && StoreMatchesLog(s) && CanAttach(s, 1, Running, 1) && s.runs[1].status == CompletedSuccess
      && !StoreMatchesLog(t) && t.listings == s.listings
  {
    var key := SyncKey(Wb, 1, Prices);
    var s1 := Next(EMPTY, Start(key, Wb, 5));
    var s2 := Next(s1, Upsert(1, "7", ids, "a"));
    assert s2.listings.Keys == {1};
    var s3 := Next(s2, Complete(1, 0));
    assert s3.log == [Completion(1, 2, NO_SNAPSHOTS)];
    var t := Next(s3, Attach(1, Running, 1, PriceSnapshot(body, 3)));
    assert t.log[0].run in t.batches && |t.batches[1].prices| == 1;
  }

  // ---------- the tables ----------

  ghost predicate Collected<T>(latest: map<nat, Stamped<T>>, s: seq<Stamped<T>>) {
    forall l :: (l in latest <==> Latest(s, l).Some?) && (l in latest ==> latest[l] == Latest(s, l).value)
  }

  ghost predicate Grouped<T>(groups: map<nat, seq<Stamped<T>>>, s: seq<Stamped<T>>) {
    forall l :: (l in groups <==> NewestFirst(s, l) != []) && (l in groups ==> groups[l] == NewestFirst(s, l))
  }

  lemma PartsInOrder(values: Cache, price: Cache, stock: Cache, sales: Cache, promotions: Cache)
    ensures values + (price + ((stock + sales) + promotions)) == (((values + price) + stock) + sales) + promotions
  {
  }

  lemma CollectedKeys<T(!new)>(latest: map<nat, Stamped<T>>, s: seq<Stamped<T>>)
    requires Collected(latest, s)
    ensures latest.Keys == ListingsOf(s)
  {
    forall l ensures l in latest <==> l in ListingsOf(s) { LatestMeaning(s, l); }
  }

  lemma GroupedKeys<T(!new)>(groups: map<nat, seq<Stamped<T>>>, s: seq<Stamped<T>>)
    requires Grouped(groups, s)
    ensures groups.Keys == ListingsOf(s)
  {
    forall l ensures l in groups <==> l in ListingsOf(s) { LatestMeaning(s, l); }
  }

  lemma ReachableTables(s: State, run: nat)
    requires Reachable(s)
    ensures run in s.batches <==> run in s.runs
    ensures run in s.runs ==> run in s.batches && Touched(s.batches[run]) <= s.listings.Keys
  {
    ReachableInv(s);
    if run in s.runs { BatchInListings(s.runs, s.batches, s.listings, run); }
  }

  lemma AppliedNone(listings: map<nat, Listing>, b: Batch, run: nat, source: nat, at: nat)
    ensures Applied(listings, {}, b, run, source, at) == listings
  {
  }

  lemma AppliedOneMore(listings: map<nat, Listing>, ids: set<nat>, l: nat, b: Batch, run: nat, source: nat, at: nat)
    requires l in listings && l !in ids
    ensures Applied(listings, ids + {l}, b, run, source, at)
         == Applied(listings, ids, b, run, source, at)[l := Refreshed(listings[l], Overlay(b, l), run, source, at)]
  {
  }

  function PartOf(part: Option<Cache>): Cache { if part.Some? then part.value else map[] }

  method MergePart(older: Cache, part: Option<Cache>) returns (values: Cache)
    ensures values == older + PartOf(part)
  {
    values := older;
    if part.Some? { values := values + part.value; }
  }

  method MergeParts(older: Cache, price: Option<Cache>, stock: Option<Cache>, sales: Option<Cache>,
                    promotions: Option<Cache>)
    returns (values: Cache)
    ensures values == older + (PartOf(price) + ((PartOf(stock) + PartOf(sales)) + PartOf(promotions)))
  {
    PartsInOrder(older, PartOf(price), PartOf(stock), PartOf(sales), PartOf(promotions));
    values := MergePart(older, price);
    values := MergePart(values, stock);
    values := MergePart(values, sales);
    values := MergePart(values, promotions);
  }

  /** Merges one listing's latest snapshots into its cached values, part by part. */
  method MergeValues(older: Cache, l: nat, ghost b: Batch, prices: map<nat, Stamped<PriceBody>>,
                     stocks: map<nat, Stamped<StockBody>>, sales: map<nat, Stamped<SalesBody>>,
                     promotions: map<nat, seq<Stamped<PromotionBody>>>)
    returns (values: Cache)
    requires Collected(prices, b.prices) && Collected(stocks, b.stocks) && Collected(sales, b.sales)
    requires Grouped(promotions, b.promotions)
    ensures values == older + Overlay(b, l)
  {
    var price := if l in prices then Some(PriceCache(prices[l])) else None;
    var stock := if l in stocks then Some(StockCache(stocks[l])) else None;
    var sale := if l in sales then Some(SalesCache(sales[l])) else None;
    var promotion := if l in promotions then Some(PromotionsCache(promotions[l])) else None;
    values := MergeParts(older, price, stock, sale, promotion);
  }

  /** The sync tables; the history of completions is kept only for the proofs. */
  class SyncTables {
    var runs: map<nat, SyncRun>
    var batches: map<nat, Batch>
    var listings: map<nat, Listing>
    var nextRun: nat
    var nextListing: nat
    var nextSnapshot: nat
    var clock: nat
    ghost var log: seq<Completion>

    ghost function Contents(): State
      reads this
    {
      State(runs, batches, listings, nextRun, nextListing, nextSnapshot, clock, log)
    }

    ghost predicate Valid()
      reads this
    {
      Reachable(Contents())
    }

    constructor ()
      ensures Valid() && Contents() == EMPTY
    {
      runs, batches, listings, nextRun, nextListing, nextSnapshot, clock, log := map[], map[], map[], 1, 1, 1, 0, [];
      new;
      assert ReachedBy(Contents(), []);
    }

    method Tick()
      modifies this`clock
      ensures clock == old(clock) + 1
    {
      clock := clock + 1;
    }

    method StartRun(key: SyncKey, storeMarketplace: Marketplace, source: nat) returns (run: Result<nat>)
      requires Valid()
      modifies this
      ensures Valid() && Contents() == Next(old(Contents()), Start(key, storeMarketplace, source))
      ensures run == if Starting(old(Contents()), key, storeMarketplace, source).Ok? then Ok(old(nextRun)) else Raised
    {
      ReachableNext(Contents(), Start(key, storeMarketplace, source));
      Tick();
      if storeMarketplace != key.marketplace || ActiveRuns(runs, key) != {} { return Raised; }
      var id := nextRun;
      runs, batches, nextRun := runs[id := SyncRun(key, source, Running)], batches[id := NO_SNAPSHOTS], nextRun + 1;
      return Ok(id);
    }

    method AttachSnapshot(run: nat, handleStatus: RunStatus, listing: nat, snapshot: Snapshot) returns (attached: bool)
      requires Valid()
      modifies this
      ensures Valid() && Contents() == Next(old(Contents()), Attach(run, handleStatus, listing, snapshot))
      ensures attached == CanAttach(old(Contents()), run, handleStatus, listing)
    {
      ReachableNext(Contents(), Attach(run, handleStatus, listing, snapshot));
      ReachableTables(Contents(), run);
      var now := clock;
      Tick();
      if run !in runs || listing !in listings || !Active(handleStatus) { return false; }
      if listings[listing].store != runs[run].key.store || listings[listing].marketplace != runs[run].key.marketplace {
        return false;
      }
      batches := batches[run := Added(batches[run], nextSnapshot, listing, snapshot, now)];
      nextSnapshot := nextSnapshot + 1;
      return true;
    }

    method RefreshListing(l: nat, ghost b: Batch, prices: map<nat, Stamped<PriceBody>>,
                          stocks: map<nat, Stamped<StockBody>>, sales: map<nat, Stamped<SalesBody>>,
                          promotions: map<nat, seq<Stamped<PromotionBody>>>, run: nat, source: nat, at: nat)
      requires l in listings
      requires Collected(prices, b.prices) && Collected(stocks, b.stocks) && Collected(sales, b.sales)
      requires Grouped(promotions, b.promotions)
      modifies this`listings
      ensures listings == old(listings)[l := Refreshed(old(listings)[l], Overlay(b, l), run, source, at)]
    {
      var listing := listings[l];
      var values := MergeValues(listing.values, l, b, prices, stocks, sales, promotions);
      if listing.firstSeen.None? { listing := listing.(firstSeen := Some(at)); }
      listings := listings[l := listing.(values := values, active := true, lastSeen := Some(at),
                                         lastSuccess := Some(at),
                                         lastRun := Some(run), lastSource := source)];
    }

    /** Refreshes every listing the run has a snapshot for and counts them. */
    method ApplyCache(b: Batch, run: nat, source: nat, at: nat) returns (updated: nat)
      requires Touched(b) <= listings.Keys
      modifies this`listings
      ensures listings == Applied(old(listings), Touched(b), b, run, source, at)
      ensures updated == |Touched(b)|
    {
      var prices := LatestByListing(b.prices);
      var stocks := LatestByListing(b.stocks);
      var sales := LatestByListing(b.sales);
      var promotions := GroupByListing(b.promotions);
      CollectedKeys(prices, b.prices);
      CollectedKeys(stocks, b.stocks);
      CollectedKeys(sales, b.sales);
      GroupedKeys(promotions, b.promotions);
      updated := RefreshAll(prices.Keys + stocks.Keys + sales.Keys + promotions.Keys, b, prices, stocks, sales,
                            promotions,
                            run, source, at);
    }

    method RefreshAll(ids: set<nat>, ghost b: Batch, prices: map<nat, Stamped<PriceBody>>,
                      stocks: map<nat, Stamped<StockBody>>, sales: map<nat, Stamped<SalesBody>>,
                      promotions: map<nat, seq<Stamped<PromotionBody>>>, run: nat, source: nat, at: nat)
      returns (updated: nat)
      requires ids <= listings.Keys
      requires Collected(prices, b.prices) && Collected(stocks, b.stocks) && Collected(sales, b.sales)
      requires Grouped(promotions, b.promotions)
      modifies this`listings
      ensures listings == Applied(old(listings), ids, b, run, source, at)
      ensures updated == |ids|
    {
      var done: set<nat> := {};
      updated := 0;
      AppliedNone(listings, b, run, source, at);
      while ids - done != {}
        invariant done <= ids && updated == |done|
        invariant listings == Applied(old(listings), done, b, run, source, at)
        decreases ids - done
      {
        var l :| l in ids - done;
        AppliedOneMore(old(listings), done, l, b, run, source, at);
        RefreshListing(l, b, prices, stocks, sales, promotions, run, source, at);
        updated := updated + 1;
        done := done + {l};
      }
      AllDone(ids, done);
    }

    method MarkCompleted(run: nat, warningCount: nat) returns (updated: nat)
      requires run in runs && run in batches && Touched(batches[run]) <= listings.Keys
      modifies this`runs, this`listings, this`log
      ensures Contents() == MarkedCompleted(old(Contents()), run, warningCount)
      ensures updated == |Touched(batches[run])|
    {
      var status := CompletedSuccess;
      if warningCount > 0 { status := CompletedWithWarnings; }
      runs := runs[run := runs[run].(status := status)];
      updated := ApplyCache(batches[run], run, runs[run].source, clock);
      log := log + [Completion(run, clock, batches[run])];
    }

    /** Also returns how many listings the completion refreshed. */
    method CompleteRun(run: nat, warningCount: nat) returns (updated: Result<nat>)
      requires Valid()
      modifies this
      ensures Valid() && Contents() == Next(old(Contents()), Complete(run, warningCount))
      ensures updated.Ok? <==> Completing(old(Contents()), run, warningCount).Ok?
      ensures updated.Ok? ==> run in old(batches) && updated.value == |Touched(old(batches)[run])|
    {
      ReachableNext(Contents(), Complete(run, warningCount));
      ReachableTables(Contents(), run);
      if run !in runs || !Active(runs[run].status) {
        Tick();
        return Raised;
      }
      var count := MarkCompleted(run, warningCount);
      Tick();
      return Ok(count);
    }

    method FailRun(run: nat, status: RunStatus) returns (failed: bool)
      requires Valid()
      modifies this
      ensures Valid() && Contents() == Next(old(Contents()), Fail(run, status))
      ensures failed == Failing(old(Contents()), run, status).Ok?
    {
      ReachableNext(Contents(), Fail(run, status));
      Tick();
      if status != CompletedWithError && status != InterruptedFailed { return false; }
      if run !in runs || !Active(runs[run].status) { return false; }
      runs := runs[run := runs[run].(status := status)];
      return true;
    }

    /** The listing of the run's store with this external id, created when missing. */
    method UpsertListing(run: nat, externalId: string, ids: ExternalIds, article: string) returns (listing: Result<nat>)
      requires Valid()
      modifies this
      ensures Valid() && Contents() == Next(old(Contents()), Upsert(run, externalId, ids, article))
      ensures listing == if Upserting(old(Contents()), run, externalId, ids, article).Ok?
                         then Ok(Upserted(old(Contents()), run, externalId)) else Raised
    {
      ReachableNext(Contents(), Upsert(run, externalId, ids, article));
      Tick();
      if run !in runs || externalId == "" { return Raised; }
      var key, source := runs[run].key, runs[run].source;
      var found := Matching(listings, key, externalId);
      if found == {} {
        var id := nextListing;
        nextListing := nextListing + 1;
        listings := listings[id := Listing(key.store, key.marketplace, externalId, ids, article, true, map[], None,
                                           None, None,
                                           None, source)];
        return Ok(id);
      }
      var l := Min(found);
      listings := listings[l := listings[l].(ids := ids, article := article, active := true, lastSource := source)];
      return Ok(l);
    }
  }
}
