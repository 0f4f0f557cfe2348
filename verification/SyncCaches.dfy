/** A sync from end to end: from the source rows of any of the four adapters to the cached values of the listings. */
module SyncCaches {
  import opened Common
  import opened OperationTypes
  import opened Snapshots
  import opened SyncRuns
  import opened SyncAdapters

  // ---------- snapshots stamped as they are written ----------

  function Reversed<T>(s: seq<T>): seq<T> {
    if s == [] then [] else [s[|s| - 1]] + Reversed(s[..|s| - 1])
  }

  ghost predicate InTime<T>(s: seq<Stamped<T>>, since: nat, now: nat) {
    && (forall i :: 0 <= i < |s| ==> since <= s[i].at < now)
    && forall i, j :: 0 <= i < j < |s| ==> s[i].at < s[j].at
  }

  ghost predicate Descends<T>(s: seq<Stamped<T>>) {
    forall i, j :: 0 <= i < j < |s| ==> s[j].at <= s[i].at
  }

  lemma ReversedSnoc<T>(s: seq<T>, x: T)
    ensures Reversed(s + [x]) == [x] + Reversed(s)
  {
    assert (s + [x])[..|s|] == s;
  }

  lemma OnListingSnoc<T>(s: seq<Stamped<T>>, x: Stamped<T>, l: nat)
    ensures OnListing(s + [x], l) == OnListing(s, l) + if x.listing == l then [x] else []
  {
    assert (s + [x])[..|s|] == s;
  }

  lemma {:induction false} OnListingMembers<T(!new)>(s: seq<Stamped<T>>, l: nat)
    ensures forall x :: x in OnListing(s, l) ==> x in s && x.listing == l
  {
    if s != [] { OnListingMembers(s[..|s| - 1], l); }
  }

  lemma {:induction false} ReversedContents<T(!new)>(s: seq<T>)
    ensures multiset(Reversed(s)) == multiset(s)
    ensures forall x :: x in Reversed(s) <==> x in s
  {
    if s != [] {
      ReversedContents(s[..|s| - 1]);
      assert s == s[..|s| - 1] + [s[|s| - 1]];
    }
  }

  lemma DescendsCons<T(!new)>(x: Stamped<T>, rest: seq<Stamped<T>>)
    requires Descends(rest) && forall y :: y in rest ==> y.at <= x.at
    ensures Descends([x] + rest)
  {
    var s := [x] + rest;
    forall i, j | 0 <= i < j < |s| ensures s[j].at <= s[i].at {
      assert s[j] == rest[j - 1] && (i == 0 || s[i] == rest[i - 1]);
    }
  }

  lemma {:induction false} ReversedDescends<T(!new)>(s: seq<Stamped<T>>, l: nat, since: nat, now: nat)
    requires InTime(s, since, now)
    ensures Descends(Reversed(OnListing(s, l)))
  {
    if s != [] {
      var most, last := s[..|s| - 1], s[|s| - 1];
      ReversedDescends(most, l, since, now);
      if last.listing == l {
        ReversedSnoc(OnListing(most, l), last);
        ReversedContents(OnListing(most, l));
        OnListingMembers(most, l);
        forall y | y in Reversed(OnListing(most, l)) ensures y.at <= last.at { assert y in most; }
        DescendsCons(last, Reversed(OnListing(most, l)));
      } else {
        assert OnListing(s, l) == OnListing(most, l);
      }
    }
  }

  lemma FirstAgrees<T(!new)>(a: seq<Stamped<T>>, b: seq<Stamped<T>>)
    requires Descends(a) && Descends(b) && multiset(a) == multiset(b) && a != []
    requires forall x, y :: x in a && y in a && x.at == y.at ==> x == y
    ensures b != [] && a[0] == b[0]
  {
    assert a[0] in multiset(b);
    var k :| 0 <= k < |b| && b[k] == a[0];
    assert b[0] in multiset(a);
    var m :| 0 <= m < |a| && a[m] == b[0];
  }

  /** Two newest-first arrangements of the same snapshots, no two of one time, are the same sequence. */
  lemma {:induction false} DescendingUnique<T(!new)>(a: seq<Stamped<T>>, b: seq<Stamped<T>>)
    requires Descends(a) && Descends(b) && multiset(a) == multiset(b)
    requires forall x, y :: x in a && y in a && x.at == y.at ==> x == y
    ensures a == b
  {
    if a == [] {
      assert |b| == |multiset(b)| == 0;
    } else {
      FirstAgrees(a, b);
      TailContents(a);
      TailContents(b);
      DescendingUnique(a[1..], b[1..]);
    }
  }

  lemma TimesApart<T(!new)>(s: seq<Stamped<T>>, since: nat, now: nat)
    requires InTime(s, since, now)
    ensures forall x, y :: x in s && y in s && x.at == y.at ==> x == y
  {
  }

  lemma NewestFirstContents<T(!new)>(s: seq<Stamped<T>>, l: nat)
    ensures multiset(NewestFirst(s, l)) == multiset(OnListing(s, l))
    ensures Descends(NewestFirst(s, l))
    ensures forall x :: x in NewestFirst(s, l) ==> x in s
  {
    NewestFirstMeaning(s, l);
    forall x ensures multiset(NewestFirst(s, l))[x] == multiset(OnListing(s, l))[x] { OnListingCount(s, l, x); }
    forall x | x in NewestFirst(s, l) ensures x in s { assert multiset(NewestFirst(s, l))[x] > 0; }
  }

  /** The query, newest first, lists snapshots stamped as they are written in the reverse of that order. */
  lemma NewestIsReversed<T(!new)>(s: seq<Stamped<T>>, l: nat, since: nat, now: nat)
    requires InTime(s, since, now)
    ensures NewestFirst(s, l) == Reversed(OnListing(s, l))
  {
    NewestFirstContents(s, l);
    ReversedDescends(s, l, since, now);
    ReversedContents(OnListing(s, l));
    TimesApart(s, since, now);
    DescendingUnique(NewestFirst(s, l), Reversed(OnListing(s, l)));
  }

  lemma {:induction false} ReversedBodies<T>(s: seq<Stamped<T>>)
    ensures Bodies(Reversed(s)) == Reversed(Bodies(s))
  {
    if s != [] {
      ReversedBodies(s[..|s| - 1]);
      assert Bodies(s)[..|s| - 1] == Bodies(s[..|s| - 1]);
    }
  }

  lemma LatestIsLast<T(!new)>(s: seq<Stamped<T>>, l: nat, since: nat, now: nat)
    requires InTime(s, since, now)
    ensures var mine := OnListing(s, l);
      && |Bodies(mine)| == |mine|
      && (mine == [] ==> Latest(s, l).None?)
      && (mine != [] ==> Latest(s, l) == Some(mine[|mine| - 1]) && mine[|mine| - 1].listing == l
                         && mine[|mine| - 1].body == Bodies(mine)[|mine| - 1] && since <= mine[|mine| - 1].at < now)
  {
    NewestIsReversed(s, l, since, now);
    OnListingMembers(s, l);
  }

  // ---------- what the rows give a listing ----------

  /** The bodies of a listing's snapshots, in the order they are written. */
  datatype Content = Content(prices: seq<PriceBody>, stocks: seq<StockBody>, promotions: seq<PromotionBody>)

  const NO_CONTENT := Content([], [], [])

  /** The listing a row is about: the one with its id, or for WB promotions the only one either id or article points
      to. */
  predicate Means(a: Adapter, listings: map<nat, Listing>, key: SyncKey, row: Row, l: nat) {
    l in listings && if a.WbPromotions? then Existing(listings, key, row) == {l}
                     else listings[l].externalId == row.externalId
  }

  function Plus(a: Adapter, c: Content, row: Row): Content {
    match a
    case WbPrices => if row.price.Some? then c.(prices := c.prices + [row.price.value]) else c
    case OzonStocks => if row.stock.Some? then c.(stocks := c.stocks + [row.stock.value]) else c
    case _ => c.(promotions := c.promotions + [row.promotion])
  }

  function Given(a: Adapter, listings: map<nat, Listing>, key: SyncKey, duplicates: set<string>, rows: seq<Row>,
                 l: nat): Content {
    if rows == [] then NO_CONTENT
    else
      var c, row := Given(a, listings, key, duplicates, rows[..|rows| - 1], l), rows[|rows| - 1];
      if !Unusable(a, duplicates, row) && Means(a, listings, key, row, l) then Plus(a, c, row) else c
  }

  function OfKind(a: Adapter, c: Content): Content {
    match a
    case WbPrices => NO_CONTENT.(prices := c.prices)
    case OzonStocks => NO_CONTENT.(stocks := c.stocks)
    case _ => NO_CONTENT.(promotions := c.promotions)
  }

  lemma GivenSnoc(a: Adapter, listings: map<nat, Listing>, key: SyncKey, duplicates: set<string>, rows: seq<Row>,
                  row: Row, l: nat)
    ensures Given(a, listings, key, duplicates, rows + [row], l)
         == var c := Given(a, listings, key, duplicates, rows, l);
            if !Unusable(a, duplicates, row) && Means(a, listings, key, row, l) then Plus(a, c, row) else c
  {
    assert (rows + [row])[..|rows|] == rows;
  }

  lemma {:induction false} GivenOfKind(a: Adapter, listings: map<nat, Listing>, key: SyncKey, duplicates: set<string>,
                                       rows: seq<Row>, l: nat)
    ensures OfKind(a, Given(a, listings, key, duplicates, rows, l)) == Given(a, listings, key, duplicates, rows, l)
  {
    if rows != [] { GivenOfKind(a, listings, key, duplicates, rows[..|rows| - 1], l); }
  }

  lemma {:induction false} GivenSame(a: Adapter, before: map<nat, Listing>, after: map<nat, Listing>, key: SyncKey,
                                     duplicates: set<string>, rows: seq<Row>, l: nat)
    requires forall row :: Means(a, before, key, row, l) == Means(a, after, key, row, l)
    ensures Given(a, before, key, duplicates, rows, l) == Given(a, after, key, duplicates, rows, l)
  {
    if rows != [] { GivenSame(a, before, after, key, duplicates, rows[..|rows| - 1], l); }
  }

  lemma {:induction false} GivenNone(a: Adapter, listings: map<nat, Listing>, key: SyncKey, duplicates: set<string>,
                                     rows: seq<Row>, l: nat)
    requires forall i :: 0 <= i < |rows| && !Unusable(a, duplicates, rows[i]) ==> !Means(a, listings, key, rows[i], l)
    ensures Given(a, listings, key, duplicates, rows, l) == NO_CONTENT
  {
    if rows != [] { GivenNone(a, listings, key, duplicates, rows[..|rows| - 1], l); }
  }

  /** The listing a row is about, by its fields. */
  ghost predicate Concerns(a: Adapter, listings: map<nat, Listing>, key: SyncKey, row: Row, l: nat) {
    l in listings && if a == WbPromotions then OnlyPointed(listings, key, row, l)
                     else listings[l].externalId == row.externalId
  }

  lemma ConcernsIff(a: Adapter, listings: map<nat, Listing>, key: SyncKey, row: Row, l: nat)
    ensures Concerns(a, listings, key, row, l) <==> Means(a, listings, key, row, l)
  {
    OnlyPointedIff(listings, key, row, l);
  }

  /** The bodies that the first `n` rows give a listing: those of its usable rows, in order. */
  ghost function GivenBy(a: Adapter, listings: map<nat, Listing>, key: SyncKey, rows: seq<Row>, n: nat, l: nat): Content
    requires n <= |rows|
  {
    if n == 0 then NO_CONTENT
    else
      var c, row := GivenBy(a, listings, key, rows, n - 1, l), rows[n - 1];
      if !Usable(a, rows, n - 1) || !Concerns(a, listings, key, row, l) then c
      else if a == WbPrices then
        if row.price.Some? then c.(prices := c.prices + [row.price.value]) else c
      else if a == OzonStocks then c.(stocks := c.stocks + [row.stock.value])
      else c.(promotions := c.promotions + [row.promotion])
  }

  lemma {:induction false} GivenByRows(a: Adapter, listings: map<nat, Listing>, key: SyncKey, rows: seq<Row>, n: nat,
                                       l: nat)
    requires n <= |rows|
    ensures GivenBy(a, listings, key, rows, n, l) == Given(a, listings, key, Duplicates(rows), rows[..n], l)
  {
    if n > 0 {
      GivenByRows(a, listings, key, rows, n - 1, l);
      assert rows[..n][..n - 1] == rows[..n - 1];
      UsableIff(a, rows, n - 1);
      ConcernsIff(a, listings, key, rows[n - 1], l);
    }
  }

  // ---------- what the run's snapshots carry ----------

  function Carried(b: Batch, l: nat): Content {
    Content(Bodies(OnListing(b.prices, l)), Bodies(OnListing(b.stocks, l)), Bodies(OnListing(b.promotions, l)))
  }

  ghost predicate Timed(b: Batch, since: nat, now: nat) {
    b.sales == [] && InTime(b.prices, since, now) && InTime(b.stocks, since, now) && InTime(b.promotions, since, now)
  }

  lemma BodiesSnoc<T>(s: seq<Stamped<T>>, x: Stamped<T>, l: nat)
    ensures Bodies(OnListing(s + [x], l)) == Bodies(OnListing(s, l)) + if x.listing == l then [x.body] else []
  {
    OnListingSnoc(s, x, l);
  }

  lemma InTimeSnoc<T>(s: seq<Stamped<T>>, x: Stamped<T>, since: nat)
    requires InTime(s, since, x.at) && since <= x.at
    ensures InTime(s + [x], since, x.at + 1)
  {
  }

  lemma InTimeLater<T>(s: seq<Stamped<T>>, since: nat, now: nat)
    requires InTime(s, since, now)
    ensures InTime(s, since, now + 1)
  {
  }

  lemma TimedLater(b: Batch, since: nat, now: nat)
    requires Timed(b, since, now)
    ensures Timed(b, since, now + 1)
  {
    InTimeLater(b.prices, since, now);
    InTimeLater(b.stocks, since, now);
    InTimeLater(b.promotions, since, now);
  }

  lemma AddedTimed(a: Adapter, row: Row, b: Batch, id: nat, listing: nat, since: nat, now: nat)
    requires Payload(a, row, now).Some? && Timed(b, since, now) && since <= now
    ensures Timed(Added(b, id, listing, Payload(a, row, now).value, now), since, now + 1)
  {
    TimedLater(b, since, now);
    match Payload(a, row, now).value
    case PriceSnapshot(body, at) => InTimeSnoc(b.prices, Stamped(id, listing, at, body), since);
    case StockSnapshot(body, at) => InTimeSnoc(b.stocks, Stamped(id, listing, at, body), since);
    case PromotionSnapshot(body) => InTimeSnoc(b.promotions, Stamped(id, listing, now, body), since);
    case SalesSnapshot(body, at) =>
  }

  lemma AddedCarries(a: Adapter, row: Row, b: Batch, id: nat, listing: nat, now: nat, l: nat)
    requires Payload(a, row, now).Some?
    ensures Carried(Added(b, id, listing, Payload(a, row, now).value, now), l)
         == if l == listing then Plus(a, Carried(b, l), row) else Carried(b, l)
  {
    match Payload(a, row, now).value
    case PriceSnapshot(body, at) => BodiesSnoc(b.prices, Stamped(id, listing, at, body), l);
    case StockSnapshot(body, at) => BodiesSnoc(b.stocks, Stamped(id, listing, at, body), l);
    case PromotionSnapshot(body) => BodiesSnoc(b.promotions, Stamped(id, listing, now, body), l);
    case SalesSnapshot(body, at) =>
  }

  lemma TouchedIffCarried(b: Batch, l: nat)
    requires b.sales == []
    ensures l in Touched(b) <==> Carried(b, l) != NO_CONTENT
  {
    OnListingNonempty(b.prices, l);
    OnListingNonempty(b.stocks, l);
    OnListingNonempty(b.promotions, l);
    assert ListingsOf(b.sales) == {};
  }

  // ---------- the loop ----------

  /** Every usable row so far has a listing with its id. */
  ghost predicate Placed(a: Adapter, listings: map<nat, Listing>, key: SyncKey, duplicates: set<string>,
                         rows: seq<Row>) {
    forall i :: 0 <= i < |rows| && !Unusable(a, duplicates, rows[i]) ==>
        Matching(listings, key, rows[i].externalId) != {}
  }

  ghost predicate Faithful(a: Adapter, b: Batch, listings: map<nat, Listing>, key: SyncKey, duplicates: set<string>,
                           rows: seq<Row>) {
    forall l :: InScope(listings, l, key) ==> Carried(b, l) == Given(a, listings, key, duplicates, rows, l)
  }

  /** The run's snapshots of every listing are what the rows so far give it, in order. */
  ghost predicate Follows(t: State, a: Adapter, key: SyncKey, run: nat, since: nat, duplicates: set<string>,
                          rows: seq<Row>) {
    run in t.batches && FollowsIn(t.batches[run], t.listings, t.clock, a, key, since, duplicates, rows)
  }

  ghost predicate FollowsIn(b: Batch, listings: map<nat, Listing>, now: nat, a: Adapter, key: SyncKey, since: nat,
                            duplicates: set<string>, rows: seq<Row>)
  {
    && since <= now && Timed(b, since, now)
    && (a.WbPromotions? || Placed(a, listings, key, duplicates, rows))
    && Faithful(a, b, listings, key, duplicates, rows)
  }

  lemma UnknownCarriesNone(t: State, run: nat, l: nat)
    requires Reachable(t) && run in t.runs && run in t.batches && t.batches[run].sales == [] && l !in t.listings
    ensures Carried(t.batches[run], l) == NO_CONTENT
  {
    ReachableTables(t, run);
    TouchedIffCarried(t.batches[run], l);
  }

  lemma OneMatches(t: State, key: SyncKey, l: nat, k: nat)
    requires Reachable(t) && InScope(t.listings, l, key) && InScope(t.listings, k, key)
    ensures t.listings[l].externalId == t.listings[k].externalId <==> l == k
  {
    ReachableInv(t);
  }

  ghost predicate Unmatched(listings: map<nat, Listing>, key: SyncKey, externalId: string) {
    Matching(listings, key, externalId) == {}
  }

  lemma UpsertedShape(t: State, key: SyncKey, run: nat, row: Row)
    requires Reachable(t) && run in t.runs && t.runs[run].key == key && row.externalId != ""
    ensures var u := Next(t, Upsert(run, row.externalId, row.ids, row.article));
      var l := Upserted(t, run, row.externalId);
      && u.batches == t.batches && u.clock == t.clock + 1 && u.listings.Keys == t.listings.Keys + {l}
      && SamePlaces(t.listings, u.listings) && InScope(u.listings, l, key) && u.listings[l].externalId == row.externalId
      && (l !in t.listings ==> Unmatched(t.listings, key, row.externalId))
  {
    ReachableInv(t);
  }

  lemma PlacedGrows(a: Adapter, before: map<nat, Listing>, after: map<nat, Listing>, key: SyncKey,
                    duplicates: set<string>, rows: seq<Row>)
    requires Placed(a, before, key, duplicates, rows) && SamePlaces(before, after)
    ensures Placed(a, after, key, duplicates, rows)
  {
    forall i | 0 <= i < |rows| && !Unusable(a, duplicates, rows[i])
      ensures Matching(after, key, rows[i].externalId) != {} {
      var l :| l in Matching(before, key, rows[i].externalId);
      assert l in Matching(after, key, rows[i].externalId);
    }
  }

  lemma UpsertFollows(t: State, a: Adapter, key: SyncKey, run: nat, since: nat, duplicates: set<string>, rows: seq<Row>,
                      row: Row)
    requires !a.WbPromotions? && Reachable(t) && Follows(t, a, key, run, since, duplicates, rows)
    requires run in t.runs && t.runs[run].key == key && row.externalId != ""
    ensures Follows(Next(t, Upsert(run, row.externalId, row.ids, row.article)), a, key, run, since, duplicates, rows)
  {
    var u, l := Next(t, Upsert(run, row.externalId, row.ids, row.article)), Upserted(t, run, row.externalId);
    UpsertedShape(t, key, run, row);
    TimedLater(t.batches[run], since, t.clock);
    PlacedGrows(a, t.listings, u.listings, key, duplicates, rows);
    forall k | InScope(u.listings, k, key)
      ensures Carried(u.batches[run], k) == Given(a, u.listings, key, duplicates, rows, k) {
      if k in t.listings {
        assert InScope(t.listings, k, key);
        GivenSame(a, t.listings, u.listings, key, duplicates, rows, k);
      } else {
        UnknownCarriesNone(t, run, k);
        assert k == l;
        GivenNone(a, u.listings, key, duplicates, rows, k);
      }
    }
  }

  lemma AttachedShape(t: State, run: nat, l: nat, snapshot: Snapshot)
    requires CanAttach(t, run, Running, l)
    ensures var u := Next(t, Attach(run, Running, l, snapshot));
      && u.listings == t.listings && u.clock == t.clock + 1 && run in u.batches
      && u.batches[run] == Added(t.batches[run], t.nextSnapshot, l, snapshot, t.clock)
  {
  }

  /** The row's own listing, and no other of the store, is the one it means. */
  ghost predicate Target(a: Adapter, listings: map<nat, Listing>, key: SyncKey, row: Row, l: nat) {
    && InScope(listings, l, key)
    && (a.WbPromotions? || l in Matching(listings, key, row.externalId))
    && forall k :: InScope(listings, k, key) ==> (Means(a, listings, key, row, k) <==> k == l)
  }

  lemma AttachKeepsFaithful(a: Adapter, b: Batch, listings: map<nat, Listing>, key: SyncKey, duplicates: set<string>,
                            rows: seq<Row>, row: Row, l: nat, id: nat, now: nat)
    requires Faithful(a, b, listings, key, duplicates, rows) && Target(a, listings, key, row, l)
    requires !Unusable(a, duplicates, row) && Payload(a, row, now).Some?
    ensures Faithful(a, Added(b, id, l, Payload(a, row, now).value, now), listings, key, duplicates, rows + [row])
  {
    var added := Added(b, id, l, Payload(a, row, now).value, now);
    forall k | InScope(listings, k, key)
      ensures Carried(added, k) == Given(a, listings, key, duplicates, rows + [row], k) {
      GivenSnoc(a, listings, key, duplicates, rows, row, k);
      AddedCarries(a, row, b, id, l, now, k);
    }
  }

  lemma PlacedSnoc(a: Adapter, listings: map<nat, Listing>, key: SyncKey, duplicates: set<string>, rows: seq<Row>,
                   row: Row)
    requires Placed(a, listings, key, duplicates, rows)
    requires Unusable(a, duplicates, row) || Matching(listings, key, row.externalId) != {}
    ensures Placed(a, listings, key, duplicates, rows + [row])
  {
  }

  lemma AddedFollows(b: Batch, listings: map<nat, Listing>, now: nat, a: Adapter, key: SyncKey, since: nat,
                     duplicates: set<string>, rows: seq<Row>, row: Row, l: nat, id: nat)
    requires FollowsIn(b, listings, now, a, key, since, duplicates, rows)
    requires Target(a, listings, key, row, l) && !Unusable(a, duplicates, row) && Payload(a, row, now).Some?
    ensures FollowsIn(Added(b, id, l, Payload(a, row, now).value, now), listings, now + 1, a, key, since, duplicates,
                      rows + [row])
  {
    AddedTimed(a, row, b, id, l, since, now);
    AttachKeepsFaithful(a, b, listings, key, duplicates, rows, row, l, id, now);
    if !a.WbPromotions? { PlacedSnoc(a, listings, key, duplicates, rows, row); }
  }

  lemma AttachFollows(t: State, a: Adapter, key: SyncKey, run: nat, since: nat, duplicates: set<string>, rows: seq<Row>,
                      row: Row, l: nat)
    requires Follows(t, a, key, run, since, duplicates, rows) && CanAttach(t, run, Running, l)
    requires Target(a, t.listings, key, row, l) && !Unusable(a, duplicates, row) && Payload(a, row, t.clock).Some?
    ensures Follows(Next(t, Attach(run, Running, l, Payload(a, row, t.clock).value)), a, key, run, since, duplicates,
                    rows + [row])
  {
    AttachedShape(t, run, l, Payload(a, row, t.clock).value);
    AddedFollows(t.batches[run], t.listings, t.clock, a, key, since, duplicates, rows, row, l, t.nextSnapshot);
  }

  /** A row that writes no snapshot gives none. */
  lemma SameFollows(t: State, a: Adapter, key: SyncKey, run: nat, since: nat, duplicates: set<string>, rows: seq<Row>,
                    row: Row)
    requires Follows(t, a, key, run, since, duplicates, rows)
    requires Unusable(a, duplicates, row) || a.WbPromotions? || Matching(t.listings, key, row.externalId) != {}
    requires Unusable(a, duplicates, row) || Payload(a, row, t.clock).None?
             || forall k :: InScope(t.listings, k, key) ==> !Means(a, t.listings, key, row, k)
    ensures Follows(t, a, key, run, since, duplicates, rows + [row])
  {
    forall k | InScope(t.listings, k, key)
      ensures Carried(t.batches[run], k) == Given(a, t.listings, key, duplicates, rows + [row], k)
    {
      GivenSnoc(a, t.listings, key, duplicates, rows, row, k);
    }
  }

  lemma RecordedFollows(o: Outcome, a: Adapter, key: SyncKey, run: nat, since: nat, duplicates: set<string>,
                        rows: seq<Row>, row: Row, l: nat)
    requires Follows(o.state, a, key, run, since, duplicates, rows) && Target(a, o.state.listings, key, row, l)
    requires !Unusable(a, duplicates, row) && !Recorded(a, run, o, l, row).raised
    ensures Follows(Recorded(a, run, o, l, row).state, a, key, run, since, duplicates, rows + [row])
  {
    if Payload(a, row, o.state.clock).None? {
      SameFollows(o.state, a, key, run, since, duplicates, rows, row);
    } else {
      AttachFollows(o.state, a, key, run, since, duplicates, rows, row, l);
    }
  }

  lemma UpsertTargets(t: State, a: Adapter, key: SyncKey, row: Row, l: nat)
    requires !a.WbPromotions? && Reachable(t) && InScope(t.listings, l, key)
             && t.listings[l].externalId == row.externalId
    ensures Target(a, t.listings, key, row, l)
  {
    forall k | InScope(t.listings, k, key) ensures Means(a, t.listings, key, row, k) <==> k == l {
      OneMatches(t, key, l, k);
    }
  }

  lemma OnlyMember(found: set<nat>)
    requires |found| == 1
    ensures found == {Min(found)}
  {
    assert |found - {Min(found)}| == 0;
  }

  lemma RowFollows(s: State, a: Adapter, key: SyncKey, run: nat, since: nat, duplicates: set<string>, o: Outcome,
                   rows: seq<Row>, row: Row)
    requires Working(s, key, run, o.state, o.tally.snapshots) && Follows(o.state, a, key, run, since, duplicates, rows)
    requires !o.raised && !RowStep(a, key, run, duplicates, o, row).raised
    ensures Follows(RowStep(a, key, run, duplicates, o, row).state, a, key, run, since, duplicates, rows + [row])
  {
    if Unusable(a, duplicates, row) {
      SameFollows(o.state, a, key, run, since, duplicates, rows, row);
    } else if a.WbPromotions? {
      var found := Existing(o.state.listings, key, row);
      if |found| == 1 {
        OnlyMember(found);
        RecordedFollows(o, a, key, run, since, duplicates, rows, row, Min(found));
      } else {
        SameFollows(o.state, a, key, run, since, duplicates, rows, row);
      }
    } else {
      var u, l := Next(o.state, Upsert(run, row.externalId, row.ids, row.article)),
          Upserted(o.state, run, row.externalId);
      UpsertWorks(s, key, run, o.state, o.tally.snapshots, row);
      UpsertFollows(o.state, a, key, run, since, duplicates, rows, row);
      UpsertedShape(o.state, key, run, row);
      UpsertTargets(u, a, key, row, l);
      RecordedFollows(o.(state := u), a, key, run, since, duplicates, rows, row, l);
    }
  }

  lemma FollowsStart(s: State, a: Adapter, key: SyncKey, run: nat, duplicates: set<string>)
    requires run in s.batches && s.batches[run] == NO_SNAPSHOTS
    ensures Follows(s, a, key, run, s.clock, duplicates, [])
  {
  }

  lemma {:induction false} RowsFollow(s: State, a: Adapter, key: SyncKey, run: nat, duplicates: set<string>,
                                      rows: seq<Row>)
    requires Working(s, key, run, s, 0) && s.batches[run] == NO_SNAPSHOTS
    requires !RowsOutcome(a, key, run, duplicates, Outcome(s, NOTHING, false), rows).raised
    ensures Follows(RowsOutcome(a, key, run, duplicates, Outcome(s, NOTHING, false), rows).state, a, key, run, s.clock,
                    duplicates, rows)
  {
    if rows == [] {
      FollowsStart(s, a, key, run, duplicates);
    } else {
      var most, row := rows[..|rows| - 1], rows[|rows| - 1];
      var o := RowsOutcome(a, key, run, duplicates, Outcome(s, NOTHING, false), most);
      RowsWork(s, a, key, run, duplicates, most);
      RowsFollow(s, a, key, run, duplicates, most);
      RowFollows(s, a, key, run, s.clock, duplicates, o, most, row);
      assert rows == most + [row];
    }
  }

  // ---------- the cached values ----------

  /** What a listing's snapshots of one kind write over its cached values: the last price or stock stamped with its
      time, or all promotions with the latest first. */
  function CacheOf(a: Adapter, c: Content, id: nat, l: nat, at: nat): Cache
    requires OfKind(a, c) == c
  {
    if c == NO_CONTENT then map[]
    else match a
      case WbPrices => PriceCache(Stamped(id, l, at, c.prices[|c.prices| - 1]))
      case OzonStocks => StockCache(Stamped(id, l, at, c.stocks[|c.stocks| - 1]))
      case _ => map[Promotions := PromotionList(Reversed(c.promotions))]
  }

  ghost predicate Merges(values: Cache, older: Cache, a: Adapter, c: Content, l: nat, since: nat, now: nat)
    requires OfKind(a, c) == c
  {
    exists id, at :: since <= at < now && values == older + CacheOf(a, c, id, l, at)
  }

  lemma PartsOf(b: Batch, l: nat, since: nat, now: nat)
    requires Timed(b, since, now)
    ensures Latest(b.sales, l).None?
    ensures NewestFirst(b.promotions, l) == Reversed(OnListing(b.promotions, l))
    ensures Bodies(NewestFirst(b.promotions, l)) == Reversed(Carried(b, l).promotions)
    ensures Carried(b, l).prices == [] ==> Latest(b.prices, l).None?
    ensures Carried(b, l).stocks == [] ==> Latest(b.stocks, l).None?
  {
    LatestIsLast(b.prices, l, since, now);
    LatestIsLast(b.stocks, l, since, now);
    NewestIsReversed(b.promotions, l, since, now);
    ReversedBodies(OnListing(b.promotions, l));
    assert NewestFirst(b.sales, l) == [];
  }

  lemma EmptyPromotions(b: Batch, l: nat, since: nat, now: nat)
    requires Timed(b, since, now)
    ensures Carried(b, l).promotions == [] <==> NewestFirst(b.promotions, l) == []
  {
    PartsOf(b, l, since, now);
    ReversedContents(OnListing(b.promotions, l));
    assert |multiset(Reversed(OnListing(b.promotions, l)))| == |multiset(OnListing(b.promotions, l))|;
  }

  lemma Plain(m: Cache)
    ensures m + map[] == m && map[] + m == m
  {
  }

  lemma OnlyPrice(b: Batch, l: nat)
    requires Latest(b.prices, l).Some? && Latest(b.stocks, l).None? && Latest(b.sales, l).None?
             && NewestFirst(b.promotions, l) == []
    ensures Overlay(b, l) == PriceCache(Latest(b.prices, l).value)
  {
    Plain(map[]);
    Plain(PricePart(b, l));
  }

  lemma OnlyStock(b: Batch, l: nat)
    requires Latest(b.prices, l).None? && Latest(b.stocks, l).Some? && Latest(b.sales, l).None?
             && NewestFirst(b.promotions, l) == []
    ensures Overlay(b, l) == StockCache(Latest(b.stocks, l).value)
  {
    Plain(StockCache(Latest(b.stocks, l).value));
  }

  lemma OnlyPromotions(b: Batch, l: nat)
    requires Latest(b.prices, l).None? && Latest(b.stocks, l).None? && Latest(b.sales, l).None?
    ensures Overlay(b, l) == PromotionsCache(NewestFirst(b.promotions, l))
  {
    Plain(map[]);
    Plain(PromotionsCache(NewestFirst(b.promotions, l)));
  }

  lemma LastPrice(b: Batch, l: nat, since: nat, now: nat)
    requires Timed(b, since, now) && OfKind(WbPrices, Carried(b, l)) == Carried(b, l) && Carried(b, l) != NO_CONTENT
    ensures var bodies := Carried(b, l).prices;
      && Latest(b.prices, l).Some? && Latest(b.stocks, l).None? && Latest(b.sales, l).None?
         && NewestFirst(b.promotions, l) == []
      && bodies != [] && since <= Latest(b.prices, l).value.at < now && Latest(b.prices, l).value.listing == l
      && Latest(b.prices, l).value.body == bodies[|bodies| - 1]
  {
    PartsOf(b, l, since, now);
    EmptyPromotions(b, l, since, now);
    LatestIsLast(b.prices, l, since, now);
  }

  lemma PriceOverlay(b: Batch, l: nat, since: nat, now: nat) returns (id: nat, at: nat)
    requires Timed(b, since, now) && OfKind(WbPrices, Carried(b, l)) == Carried(b, l) && Carried(b, l) != NO_CONTENT
    ensures since <= at < now && Overlay(b, l) == CacheOf(WbPrices, Carried(b, l), id, l, at)
  {
    LastPrice(b, l, since, now);
    OnlyPrice(b, l);
    id, at := Latest(b.prices, l).value.id, Latest(b.prices, l).value.at;
  }

  lemma StockOverlay(b: Batch, l: nat, since: nat, now: nat) returns (id: nat, at: nat)
    requires Timed(b, since, now) && OfKind(OzonStocks, Carried(b, l)) == Carried(b, l) && Carried(b, l) != NO_CONTENT
    ensures since <= at < now && Overlay(b, l) == CacheOf(OzonStocks, Carried(b, l), id, l, at)
  {
    PartsOf(b, l, since, now);
    EmptyPromotions(b, l, since, now);
    LatestIsLast(b.stocks, l, since, now);
    OnlyStock(b, l);
    id, at := Latest(b.stocks, l).value.id, Latest(b.stocks, l).value.at;
  }

  lemma PromotionOverlay(a: Adapter, b: Batch, l: nat, since: nat, now: nat)
    requires a.WbPromotions? || a.OzonActions?
    requires Timed(b, since, now) && OfKind(a, Carried(b, l)) == Carried(b, l) && Carried(b, l) != NO_CONTENT
    ensures since < now && Overlay(b, l) == CacheOf(a, Carried(b, l), 0, l, since)
  {
    PartsOf(b, l, since, now);
    EmptyPromotions(b, l, since, now);
    assert b.promotions != [] && since <= b.promotions[0].at < now;
    OnlyPromotions(b, l);
  }

  lemma OverlayOf(a: Adapter, b: Batch, l: nat, since: nat, now: nat) returns (id: nat, at: nat)
    requires Timed(b, since, now) && OfKind(a, Carried(b, l)) == Carried(b, l) && Carried(b, l) != NO_CONTENT
    ensures since <= at < now && Overlay(b, l) == CacheOf(a, Carried(b, l), id, l, at)
  {
    match a
    case WbPrices => id, at := PriceOverlay(b, l, since, now);
    case OzonStocks => id, at := StockOverlay(b, l, since, now);
    case _ =>
      PromotionOverlay(a, b, l, since, now);
      id, at := 0, since;
  }

  lemma CompletedListing(t: State, a: Adapter, run: nat, warnings: nat, l: nat, since: nat)
    requires run in t.runs && run in t.batches && Active(t.runs[run].status) && l in t.listings
    requires Timed(t.batches[run], since, t.clock)
             && OfKind(a, Carried(t.batches[run], l)) == Carried(t.batches[run], l)
    ensures var u := Next(t, Complete(run, warnings)); var c := Carried(t.batches[run], l);
      && l in u.listings
      && (c == NO_CONTENT ==> u.listings[l] == t.listings[l])
      && (c != NO_CONTENT ==>
            u.listings[l].lastRun == Some(run) && u.listings[l].lastSuccess == Some(t.clock) && u.listings[l].active
                              && Merges(u.listings[l].values, t.listings[l].values, a, c, l, since, t.clock))
  {
    TouchedIffCarried(t.batches[run], l);
    if Carried(t.batches[run], l) != NO_CONTENT {
      var id, at := OverlayOf(a, t.batches[run], l, since, t.clock);
    }
  }

  /** The rows a returning sync writes; an automatic WB promotion has none. */
  function RowsOf(q: Request): seq<Row> {
    if (q.adapter.WbPromotions? && q.autoPromotion) || q.rows.None? then [] else q.rows.value
  }

  lemma WrittenFollows(s: State, q: Request)
    requires Reachable(s) && Succeeds(s, q)
    ensures Follows(Prepared(Next(s, StartOf(q)), q, s.nextRun), q.adapter, KeyOf(q.adapter, q.store), s.nextRun,
                    s.clock + 1,
                    Duplicates(RowsOf(q)), RowsOf(q))
  {
    StartedWorks(s, q);
    if q.adapter.WbPromotions? && q.autoPromotion {
      FollowsStart(Next(s, StartOf(q)), q.adapter, KeyOf(q.adapter, q.store), s.nextRun, Duplicates([]));
    } else {
      RowsFollow(Next(s, StartOf(q)), q.adapter, KeyOf(q.adapter, q.store), s.nextRun, Duplicates(q.rows.value),
                 q.rows.value);
    }
  }

  /** The cached part of a listing as a state has it; a listing still to come has nothing cached. */
  function CachedIn(s: State, l: nat): Cached {
    if l in s.listings then CachedOf(s.listings[l]) else Cached(map[], None, None)
  }

  lemma CacheAsBefore(s: State, t: State, l: nat)
    requires Reachable(s) && Reachable(t) && t.log == s.log && l in t.listings
    ensures CachedOf(t.listings[l]) == CachedIn(s, l)
  {
    ReachableInv(s);
    ReachableInv(t);
    if l !in s.listings {
      forall i | 0 <= i < |s.log| ensures l !in Touched(s.log[i].batch) {
        assert l in Touched(s.log[i].batch) ==> l in s.listings;
      }
      UntouchedReplay(s.log, l);
    }
  }

  /** Listings look the same to rows when their places, ids and articles do. */
  ghost predicate SameLooks(before: map<nat, Listing>, after: map<nat, Listing>) {
    before.Keys == after.Keys && SamePlaces(before, after)
    && forall l :: l in before ==> after[l].ids == before[l].ids && after[l].article == before[l].article
  }

  lemma SameMeaning(a: Adapter, before: map<nat, Listing>, after: map<nat, Listing>, key: SyncKey, row: Row, l: nat)
    requires SameLooks(before, after)
    ensures Means(a, before, key, row, l) == Means(a, after, key, row, l)
  {
    assert Existing(before, key, row) == Existing(after, key, row);
  }

  lemma SameGiven(a: Adapter, before: map<nat, Listing>, after: map<nat, Listing>, key: SyncKey,
                  duplicates: set<string>, rows: seq<Row>, l: nat)
    requires SameLooks(before, after)
    ensures Given(a, before, key, duplicates, rows, l) == Given(a, after, key, duplicates, rows, l)
  {
    forall row ensures Means(a, before, key, row, l) == Means(a, after, key, row, l) {
      SameMeaning(a, before, after, key, row, l);
    }
    GivenSame(a, before, after, key, duplicates, rows, l);
  }

  lemma CompletionKeepsLooks(t: State, run: nat, warnings: nat)
    ensures SameLooks(t.listings, Next(t, Complete(run, warnings)).listings)
  {
  }

  /** What the usable rows of a request give a listing of the state the sync ends in. */
  ghost function RowsGive(s: State, q: Request, l: nat): (c: Content)
    ensures OfKind(q.adapter, c) == c
    ensures c == Given(q.adapter, Synced(s, q).listings, KeyOf(q.adapter, q.store), Duplicates(RowsOf(q)), RowsOf(q), l)
  {
    var rows, key := RowsOf(q), KeyOf(q.adapter, q.store);
    GivenOfKind(q.adapter, Synced(s, q).listings, key, Duplicates(rows), rows, l);
    GivenByRows(q.adapter, Synced(s, q).listings, key, rows, |rows|, l);
    assert rows[..|rows|] == rows;
    GivenBy(q.adapter, Synced(s, q).listings, key, rows, |rows|, l)
  }

  lemma SyncEnds(s: State, q: Request)
    requires Succeeds(s, q)
    ensures Synced(s, q) == Next(Prepared(Next(s, StartOf(q)), q, s.nextRun), Complete(s.nextRun, WarningsOf(s, q)))
  {
  }

  lemma PreparedFacts(s: State, q: Request)
    requires Reachable(s) && Succeeds(s, q)
    ensures var p := Prepared(Next(s, StartOf(q)), q, s.nextRun);
      Reachable(p) && p.log == s.log && s.nextRun in p.runs && Active(p.runs[s.nextRun].status)
  {
    PreparedWorks(s, q);
    StartedWorks(s, q);
  }

  ghost predicate Caches(a: Adapter, after: Cached, before: Cached, c: Content, l: nat, run: nat, since: nat, now: nat)
    requires OfKind(a, c) == c
  {
    if c == NO_CONTENT then after == before
    else after.lastRun == Some(run) && after.lastSuccess == Some(now)
         && Merges(after.values, before.values, a, c, l, since, now)
  }

  lemma EndedListing(p: State, run: nat, warnings: nat, l: nat, key: SyncKey)
    requires run in p.runs && run in p.batches && Active(p.runs[run].status)
    requires InScope(Next(p, Complete(run, warnings)).listings, l, key)
    ensures l in p.listings && Next(p, Complete(run, warnings)).clock == p.clock + 1
  {
  }

  lemma CompletionCaches(p: State, a: Adapter, key: SyncKey, run: nat, warnings: nat, since: nat,
                         duplicates: set<string>, rows: seq<Row>, l: nat)
    requires Follows(p, a, key, run, since, duplicates, rows)
    requires run in p.runs && Active(p.runs[run].status) && InScope(Next(p, Complete(run, warnings)).listings, l, key)
    ensures var t := Next(p, Complete(run, warnings)); var c := Given(a, t.listings, key, duplicates, rows, l);
      OfKind(a, c) == c && l in p.listings
      && Caches(a, CachedOf(t.listings[l]), CachedOf(p.listings[l]), c, l, run, since, p.clock)
  {
    var t := Next(p, Complete(run, warnings));
    CompletionKeepsLooks(p, run, warnings);
    SameGiven(a, p.listings, t.listings, key, duplicates, rows, l);
    GivenOfKind(a, p.listings, key, duplicates, rows, l);
    assert InScope(p.listings, l, key);
    CompletedListing(p, a, run, warnings, l, since);
  }

  /** The state the completion of a returning sync starts from. */
  lemma LastStep(s: State, q: Request) returns (p: State, warnings: nat)
    requires Reachable(s) && Succeeds(s, q)
    ensures Synced(s, q) == Next(p, Complete(s.nextRun, warnings))
    ensures Reachable(p) && p.log == s.log && s.nextRun in p.runs && Active(p.runs[s.nextRun].status)
    ensures Follows(p, q.adapter, KeyOf(q.adapter, q.store), s.nextRun, s.clock + 1, Duplicates(RowsOf(q)), RowsOf(q))
  {
    SyncEnds(s, q);
    PreparedFacts(s, q);
    WrittenFollows(s, q);
    p, warnings := Prepared(Next(s, StartOf(q)), q, s.nextRun), WarningsOf(s, q);
  }

  lemma EndCaches(s: State, p: State, t: State, a: Adapter, key: SyncKey, run: nat, warnings: nat, since: nat,
                  duplicates: set<string>, rows: seq<Row>, l: nat)
    requires Reachable(s) && Reachable(p) && p.log == s.log && Follows(p, a, key, run, since, duplicates, rows)
    requires run in p.runs && Active(p.runs[run].status) && t == Next(p, Complete(run, warnings))
             && InScope(t.listings, l, key)
    ensures var c := Given(a, t.listings, key, duplicates, rows, l);
      t.clock > 0 && OfKind(a, c) == c && Caches(a, CachedOf(t.listings[l]), CachedIn(s, l), c, l, run, since,
                                                 t.clock - 1)
  {
    EndedListing(p, run, warnings, l, key);
    CompletionCaches(p, a, key, run, warnings, since, duplicates, rows, l);
    CacheAsBefore(s, p, l);
  }

  /** A sync that returns writes over each listing of its store what the usable rows about it give, the last price or
      stock or all promotions, and leaves the cache of a listing that no row gives anything as it was. */
  lemma SyncCachesRows(s: State, q: Request, l: nat)
    requires Reachable(s) && Succeeds(s, q)
    requires InScope(Synced(s, q).listings, l, KeyOf(q.adapter, q.store))
    ensures var t := Synced(s, q);
      t.clock > 0
      && Caches(q.adapter, CachedOf(t.listings[l]), CachedIn(s, l), RowsGive(s, q, l), l, s.nextRun, s.clock + 1,
                t.clock - 1)
  {
    var p, warnings := LastStep(s, q);
    EndCaches(s, p, Synced(s, q), q.adapter, KeyOf(q.adapter, q.store), s.nextRun, warnings, s.clock + 1,
              Duplicates(RowsOf(q)),
              RowsOf(q), l);
  }

  // ---------- key by key ----------

  ghost predicate Elsewhere(after: Cache, before: Cache, keys: set<CacheKey>) {
    forall k: CacheKey :: k !in keys ==> (k in after <==> k in before) && (k in before ==> after[k] == before[k])
  }

  /** A key the snapshot may leave out: with no value in it, an older one stays. */
  ghost predicate Kept(after: Cache, before: Cache, k: CacheKey, value: Option<string>) {
    (k in after <==> value.Some? || k in before)
    && (k in after ==> after[k] == if value.Some? then Text(value.value) else before[k])
  }

  const PRICE_KEYS := {Price, Currency, PriceSnapshotAt, PriceWithDiscount, DiscountPercent}
  const STOCK_KEYS := {TotalStock, StockByWarehouse, InWayToClient, InWayFromClient, StockSnapshotAt}

  lemma PriceCells(older: Cache, x: Stamped<PriceBody>)
    ensures var after := older + PriceCache(x);
      && Price in after && after[Price] == Text(x.body.price) && Currency in after
         && after[Currency] == Text(x.body.currency)
      && Kept(after, older, PriceWithDiscount, x.body.withDiscount)
         && Kept(after, older, DiscountPercent, x.body.discountPercent)
      && PriceSnapshotAt in after && after[PriceSnapshotAt] == Time(x.at)
  {
  }

  lemma PriceElsewhere(older: Cache, x: Stamped<PriceBody>)
    ensures Elsewhere(older + PriceCache(x), older, PRICE_KEYS)
  {
    assert PriceCache(x).Keys <= PRICE_KEYS;
  }

  lemma StockCells(older: Cache, x: Stamped<StockBody>)
    ensures var after := older + StockCache(x);
      && STOCK_KEYS <= after.Keys && after[TotalStock] == Quantity(x.body.total)
         && after[StockByWarehouse] == Text(x.body.byWarehouse)
      && after[InWayToClient] == Quantity(x.body.toClient) && after[InWayFromClient] == Quantity(x.body.fromClient)
      && after[StockSnapshotAt] == Time(x.at) && Elsewhere(after, older, STOCK_KEYS)
  {
    assert StockCache(x).Keys == STOCK_KEYS;
  }

  ghost predicate CachesPrice(after: Cache, before: Cache, price: PriceBody) {
    && Price in after && after[Price] == Text(price.price) && Currency in after
       && after[Currency] == Text(price.currency)
    && Kept(after, before, PriceWithDiscount, price.withDiscount)
       && Kept(after, before, DiscountPercent, price.discountPercent)
    && Elsewhere(after, before, PRICE_KEYS)
  }

  ghost predicate CachesStock(after: Cache, before: Cache, stock: StockBody) {
    && STOCK_KEYS <= after.Keys && after[TotalStock] == Quantity(stock.total)
       && after[StockByWarehouse] == Text(stock.byWarehouse)
    && after[InWayToClient] == Quantity(stock.toClient) && after[InWayFromClient] == Quantity(stock.fromClient)
    && Elsewhere(after, before, STOCK_KEYS)
  }

  ghost predicate CachesPromotions(after: Cache, before: Cache, promotions: seq<PromotionBody>) {
    after == before[Promotions := PromotionList(Reversed(promotions))]
  }

  /** Key by key: the keys of the adapter's own snapshots say what the rows gave last, or all promotions given with the
      latest first, and every other key of the cache stays. */
  lemma SyncCachesKeys(s: State, q: Request, l: nat)
    requires Reachable(s) && Succeeds(s, q)
    requires InScope(Synced(s, q).listings, l, KeyOf(q.adapter, q.store)) && RowsGive(s, q, l) != NO_CONTENT
    ensures var after, before, c := Synced(s, q).listings[l].values, CachedIn(s, l).values, RowsGive(s, q, l);
      match q.adapter
      case WbPrices => CachesPrice(after, before, c.prices[|c.prices| - 1])
      case OzonStocks => CachesStock(after, before, c.stocks[|c.stocks| - 1])
      case _ => CachesPromotions(after, before, c.promotions)
  {
    SyncCachesRows(s, q, l);
    var t, c, before := Synced(s, q), RowsGive(s, q, l), CachedIn(s, l).values;
    MergedKeys(q.adapter, t.listings[l].values, before, c, l, s.clock + 1, t.clock - 1);
  }

  lemma MergedKeys(a: Adapter, after: Cache, before: Cache, c: Content, l: nat, since: nat, now: nat)
    requires OfKind(a, c) == c && c != NO_CONTENT && Merges(after, before, a, c, l, since, now)
    ensures match a
      case WbPrices => CachesPrice(after, before, c.prices[|c.prices| - 1])
      case OzonStocks => CachesStock(after, before, c.stocks[|c.stocks| - 1])
      case _ => CachesPromotions(after, before, c.promotions)
  {
    var id, at :| since <= at < now && after == before + CacheOf(a, c, id, l, at);
    match a
    case WbPrices =>
      PriceCells(before, Stamped(id, l, at, c.prices[|c.prices| - 1]));
      PriceElsewhere(before, Stamped(id, l, at, c.prices[|c.prices| - 1]));
    case OzonStocks => StockCells(before, Stamped(id, l, at, c.stocks[|c.stocks| - 1]));
    case _ =>
  }

  /** A listing of the adapter's marketplace and the request's store with the external id. */
  ghost predicate HasId(listings: map<nat, Listing>, q: Request, externalId: string, l: nat) {
    && l in listings && listings[l].externalId == externalId && listings[l].store == q.store
    && listings[l].marketplace == if q.adapter in {WbPrices, WbPromotions} then Wb else Ozon
  }

  /** Every usable row of an upserting adapter has a listing with its id when the sync returns, and only one. */
  lemma EveryRowLands(s: State, q: Request, i: nat)
    requires Reachable(s) && Succeeds(s, q) && !q.adapter.WbPromotions?
    requires i < |RowsOf(q)| && Usable(q.adapter, RowsOf(q), i)
    ensures var listings, x := Synced(s, q).listings, RowsOf(q)[i].externalId;
      exists l :: HasId(listings, q, x, l) && forall k :: HasId(listings, q, x, k) ==> k == l
  {
    UsableIff(q.adapter, RowsOf(q), i);
    var p, warnings := LastStep(s, q);
    var key, x := KeyOf(q.adapter, q.store), RowsOf(q)[i].externalId;
    SyncSettlesItsRun(s, q);
    CompletionKeepsLooks(p, s.nextRun, warnings);
    PlacedGrows(q.adapter, p.listings, Synced(s, q).listings, key, Duplicates(RowsOf(q)), RowsOf(q));
    OneHolder(Synced(s, q), key, x);
    var found := Matching(Synced(s, q).listings, key, x);
    OnlyMember(found);
    assert HasId(Synced(s, q).listings, q, x, Min(found));
    forall k | HasId(Synced(s, q).listings, q, x, k) ensures k == Min(found) { assert k in found; }
  }

  lemma OneHolder(t: State, key: SyncKey, x: string)
    requires Reachable(t) && Matching(t.listings, key, x) != {}
    ensures |Matching(t.listings, key, x)| == 1
  {
    ReachableInv(t);
    var found := Matching(t.listings, key, x);
    assert found == {Min(found)};
  }
}
