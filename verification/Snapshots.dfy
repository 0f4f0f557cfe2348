/** Snapshots attached to a sync run, the latest ones per listing, and the cache overlay they give. */
module Snapshots {
  import opened Common

  datatype PriceBody = PriceBody(price: string, currency: string, withDiscount: Option<string>,
                                 discountPercent: Option<string>)

  datatype StockBody = StockBody(total: Option<int>, byWarehouse: string, toClient: Option<int>,
                                 fromClient: Option<int>)

  datatype SalesBody = SalesBody(periodEnd: nat, orders: Option<int>, sales: Option<int>, buyouts: Option<int>,
                                 refunds: Option<int>, amount: Option<string>, currency: string)

  datatype PromotionBody = PromotionBody(promotionId: string, actionName: string, participation: string, reason: string,
                                         price: Option<string>)

  /** A snapshot row: `at` is the timestamp it is ordered by (snapshot time, period start or creation time). */
  datatype Stamped<T> = Stamped(id: nat, listing: nat, at: nat, body: T)

  datatype Batch = Batch(prices: seq<Stamped<PriceBody>>, stocks: seq<Stamped<StockBody>>,
                         sales: seq<Stamped<SalesBody>>, promotions: seq<Stamped<PromotionBody>>)

  const NO_SNAPSHOTS := Batch([], [], [], [])

  // ---------- query order ----------

  /** `order_by("listing_id", "-<timestamp>", "-id")` */
  predicate QueryOrder<T>(a: Stamped<T>, b: Stamped<T>) {
    a.listing < b.listing
    || (a.listing == b.listing && (a.at > b.at || (a.at == b.at && a.id >= b.id)))
  }

  predicate Newer<T>(a: Stamped<T>, b: Stamped<T>) { a.at > b.at || (a.at == b.at && a.id > b.id) }

  function InQueryOrder<T>(s: seq<Stamped<T>>): seq<Stamped<T>> { SortBy(s, (a, b) => QueryOrder(a, b)) }

  function OnListing<T>(s: seq<Stamped<T>>, listing: nat): seq<Stamped<T>> {
    if s == [] then []
    else OnListing(s[..|s| - 1], listing) + (if s[|s| - 1].listing == listing then [s[|s| - 1]] else [])
  }

  lemma {:induction false} OnListingCount<T>(s: seq<Stamped<T>>, listing: nat, x: Stamped<T>)
    ensures multiset(OnListing(s, listing))[x] == if x.listing == listing then multiset(s)[x] else 0
  {
    if s != [] {
      OnListingCount(s[..|s| - 1], listing, x);
      assert s == s[..|s| - 1] + [s[|s| - 1]];
    }
  }

  lemma {:induction false} OnListingSorted<T(!new)>(s: seq<Stamped<T>>, listing: nat,
                                                    le: (Stamped<T>, Stamped<T>) -> bool)
    requires SortedBy(s, le)
    ensures SortedBy(OnListing(s, listing), le)
    ensures forall x :: x in OnListing(s, listing) ==> x in s && x.listing == listing
  {
    if s != [] {
      OnListingSorted(s[..|s| - 1], listing, le);
      var rest := OnListing(s[..|s| - 1], listing);
      forall i | 0 <= i < |rest| ensures le(rest[i], s[|s| - 1]) {
        assert rest[i] in s[..|s| - 1];
      }
    }
  }

  lemma QueryOrderSorts<T(!new)>(s: seq<Stamped<T>>)
    ensures SortedBy(InQueryOrder(s), (a, b) => QueryOrder(a, b))
    ensures multiset(InQueryOrder(s)) == multiset(s)
  {
    SortBySorted(s, (a, b) => QueryOrder(a, b));
    SortByContents(s, (a, b) => QueryOrder(a, b));
  }

  /** The snapshots of a listing, newest first. */
  function NewestFirst<T>(s: seq<Stamped<T>>, listing: nat): seq<Stamped<T>> { OnListing(InQueryOrder(s), listing) }

  /** They are exactly the listing's snapshots, each once, and nothing later in the list is newer. */
  lemma NewestFirstMeaning<T(!new)>(s: seq<Stamped<T>>, listing: nat)
    ensures forall x :: multiset(NewestFirst(s, listing))[x] == if x.listing == listing then multiset(s)[x] else 0
    ensures forall i, j :: 0 <= i < j < |NewestFirst(s, listing)| ==>
              !Newer(NewestFirst(s, listing)[j], NewestFirst(s, listing)[i])
  {
    var le := (a: Stamped<T>, b: Stamped<T>) => QueryOrder(a, b);
    QueryOrderSorts(s);
    forall x { OnListingCount(InQueryOrder(s), listing, x); }
    OnListingSorted(InQueryOrder(s), listing, le);
    var n := NewestFirst(s, listing);
    forall i, j | 0 <= i < j < |n| ensures !Newer(n[j], n[i]) {
      assert le(n[i], n[j]) && n[i] in n && n[j] in n;
    }
  }

  function First<T>(s: seq<T>): Option<T> { if s == [] then None else Some(s[0]) }

  function Latest<T>(s: seq<Stamped<T>>, listing: nat): Option<Stamped<T>> { First(NewestFirst(s, listing)) }

  /** The latest snapshot of a listing is the greatest by timestamp, then id; there is one iff there is any. */
  lemma LatestMeaning<T(!new)>(s: seq<Stamped<T>>, listing: nat)
    ensures Latest(s, listing).Some? <==> exists x :: x in s && x.listing == listing
    ensures Latest(s, listing).Some? ==>
              && Latest(s, listing).value in s && Latest(s, listing).value.listing == listing
              && forall x :: x in s && x.listing == listing ==> !Newer(x, Latest(s, listing).value)
  {
    var n := NewestFirst(s, listing);
    NewestFirstMeaning(s, listing);
    forall x ensures x in n <==> x in s && x.listing == listing {
      assert x in n <==> multiset(n)[x] > 0;
      assert x in s <==> multiset(s)[x] > 0;
    }
    if n != [] {
      assert n[0] in n;
      forall x | x in n ensures !Newer(x, n[0]) {
        var j :| 0 <= j < |n| && n[j] == x;
        assert j == 0 || !Newer(n[j], n[0]);
      }
    }
  }

  function ListingsOf<T>(s: seq<Stamped<T>>): set<nat> { set i | 0 <= i < |s| :: s[i].listing }

  lemma {:induction false} OnListingNonempty<T>(s: seq<Stamped<T>>, listing: nat)
    ensures OnListing(s, listing) != [] <==> listing in ListingsOf(s)
  {
    if s != [] {
      OnListingNonempty(s[..|s| - 1], listing);
      var most := s[..|s| - 1];
      assert forall i :: 0 <= i < |most| ==> s[i] == most[i];
      assert ListingsOf(s) == ListingsOf(most) + {s[|s| - 1].listing};
    }
  }

  /** Keeps the first snapshot met per listing while walking the query. */
  method LatestByListing<T(!new)>(snapshots: seq<Stamped<T>>) returns (latest: map<nat, Stamped<T>>)
    ensures forall l :: (l in latest <==> Latest(snapshots, l).Some?)
                        && (l in latest ==> latest[l] == Latest(snapshots, l).value)
  {
    var ordered := InQueryOrder(snapshots);
    latest := map[];
    for n := 0 to |ordered|
      invariant forall l :: (l in latest <==> OnListing(ordered[..n], l) != [])
                            && (l in latest ==> latest[l] == OnListing(ordered[..n], l)[0])
    {
      var snapshot := ordered[n];
      assert ordered[..n + 1][..n] == ordered[..n];
      if snapshot.listing !in latest {
        latest := latest[snapshot.listing := snapshot];
      }
    }
    assert ordered[..|ordered|] == ordered;
  }

  /** Collects the snapshots per listing in query order. */
  method GroupByListing<T(!new)>(snapshots: seq<Stamped<T>>) returns (groups: map<nat, seq<Stamped<T>>>)
    ensures forall l :: (l in groups <==> NewestFirst(snapshots, l) != [])
                        && (l in groups ==> groups[l] == NewestFirst(snapshots, l))
  {
    var ordered := InQueryOrder(snapshots);
    groups := map[];
    for n := 0 to |ordered|
      invariant forall l :: (l in groups <==> OnListing(ordered[..n], l) != [])
                            && (l in groups ==> groups[l] == OnListing(ordered[..n], l))
    {
      var snapshot := ordered[n];
      assert ordered[..n + 1][..n] == ordered[..n];
      var before := if snapshot.listing in groups then groups[snapshot.listing] else [];
      groups := groups[snapshot.listing := before + [snapshot]];
    }
    assert ordered[..|ordered|] == ordered;
  }

  // ---------- cache overlays ----------

  datatype CacheKey =
    | Price | Currency | PriceSnapshotAt | PriceWithDiscount | DiscountPercent
    | TotalStock | StockByWarehouse | InWayToClient | InWayFromClient | StockSnapshotAt
    | SalesPeriodStart | SalesPeriodEnd | OrdersQty | SalesQty | BuyoutQty | ReturnsQty | SalesAmount
    | Promotions

  datatype CacheValue = Text(text: string) | Quantity(quantity: Option<int>) | Time(time: nat)
                      | PromotionList(promotions: seq<PromotionBody>)

  type Cache = map<CacheKey, CacheValue>

  /** A key that is left out when the snapshot has no value for it. */
  function Optional(key: CacheKey, value: Option<string>): Cache {
    if value.Some? then map[key := Text(value.value)] else map[]
  }

  function PriceCache(s: Stamped<PriceBody>): Cache {
    map[Price := Text(s.body.price), Currency := Text(s.body.currency), PriceSnapshotAt := Time(s.at)]
    + Optional(PriceWithDiscount, s.body.withDiscount) + Optional(DiscountPercent, s.body.discountPercent)
  }

  function StockCache(s: Stamped<StockBody>): Cache {
    map[TotalStock := Quantity(s.body.total), StockByWarehouse := Text(s.body.byWarehouse),
        InWayToClient := Quantity(s.body.toClient), InWayFromClient := Quantity(s.body.fromClient),
        StockSnapshotAt := Time(s.at)]
  }

  function SalesCache(s: Stamped<SalesBody>): Cache {
    map[SalesPeriodStart := Time(s.at), SalesPeriodEnd := Time(s.body.periodEnd), OrdersQty := Quantity(s.body.orders),
        SalesQty := Quantity(s.body.sales), BuyoutQty := Quantity(s.body.buyouts),
        ReturnsQty := Quantity(s.body.refunds), Currency := Text(s.body.currency)]
    + Optional(SalesAmount, s.body.amount)
  }

  function Bodies<T>(s: seq<Stamped<T>>): seq<T> {
    seq(|s|, i requires 0 <= i < |s| => s[i].body)
  }

  function PromotionsCache(s: seq<Stamped<PromotionBody>>): Cache {
    if s == [] then map[] else map[Promotions := PromotionList(Bodies(s))]
  }

  function PricePart(b: Batch, listing: nat): Cache {
    var latest := Latest(b.prices, listing);
    if latest.Some? then PriceCache(latest.value) else map[]
  }

  function OtherParts(b: Batch, listing: nat): Cache {
    var stock, sales := Latest(b.stocks, listing), Latest(b.sales, listing);
    (if stock.Some? then StockCache(stock.value) else map[])
    + (if sales.Some? then SalesCache(sales.value) else map[])
    + PromotionsCache(NewestFirst(b.promotions, listing))
  }

  /** What a completed run writes over a listing's cached values; keys it does not mention keep their older values. */
  function Overlay(b: Batch, listing: nat): Cache { PricePart(b, listing) + OtherParts(b, listing) }

  function Touched(b: Batch): set<nat> {
    ListingsOf(b.prices) + ListingsOf(b.stocks) + ListingsOf(b.sales) + ListingsOf(b.promotions)
  }

  lemma StockKeys(s: Stamped<StockBody>)
    ensures StockCache(s).Keys !! {Price, PriceSnapshotAt, PriceWithDiscount, DiscountPercent}
  {
  }

  lemma SalesKeys(s: Stamped<SalesBody>)
    ensures SalesCache(s).Keys !! {Price, PriceSnapshotAt, PriceWithDiscount, DiscountPercent}
  {
  }

  lemma PriceKeysAreThePrices(b: Batch, listing: nat)
    ensures OtherParts(b, listing).Keys !! {Price, PriceSnapshotAt, PriceWithDiscount, DiscountPercent}
  {
    var stock, sales := Latest(b.stocks, listing), Latest(b.sales, listing);
    if stock.Some? { StockKeys(stock.value); }
    if sales.Some? { SalesKeys(sales.value); }
  }

  /** A price snapshot without a discount leaves an older discount in the cache; with one it replaces it. */
  lemma OverlayKeepsOlderDiscount(b: Batch, listing: nat, older: Cache)
    requires Latest(b.prices, listing).Some?
    ensures var discount := Latest(b.prices, listing).value.body.withDiscount; var cache := older + Overlay(b, listing);
      && (PriceWithDiscount in cache <==> discount.Some? || PriceWithDiscount in older)
      && (PriceWithDiscount in cache ==>
            cache[PriceWithDiscount] == if discount.Some? then Text(discount.value) else older[PriceWithDiscount])
  {
    PriceKeysAreThePrices(b, listing);
    var part := PriceCache(Latest(b.prices, listing).value);
    var discount := Latest(b.prices, listing).value.body.withDiscount;
    assert PriceWithDiscount in part <==> discount.Some?;
    assert PriceWithDiscount !in OtherParts(b, listing);
  }
}
