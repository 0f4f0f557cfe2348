/** Deterministic enrichment: linking operation detail rows to marketplace listings by exact identifiers. */
module Enrichment {
  import opened Common
  import opened OperationTypes

  // ---------- listings and match keys ----------

  datatype ExternalKey = NmId | VendorCode | ProductId | OfferId

  /** Declared in the order Python sorts the key names. */
  datatype MatchKey = ExternalIds(key: ExternalKey) | ExternalPrimaryId | SellerArticle

  /** A value under an external id: a scalar by its text, or a container. */
  datatype Json = Scalar(text: string) | Container

  datatype Listing = Listing(store: nat, marketplace: Marketplace, externalPrimaryId: string, sellerArticle: string,
                             externalIds: map<ExternalKey, Json>)

  function TrimmedScalar(value: Json): string {
    match value
    case Scalar(text) => Strip(text)
    case Container => ""
  }

  function KeyText(l: Listing, k: MatchKey): string {
    match k
    case ExternalPrimaryId => Strip(l.externalPrimaryId)
    case SellerArticle => Strip(l.sellerArticle)
    case ExternalIds(key) => if key in l.externalIds then TrimmedScalar(l.externalIds[key]) else ""
  }

  function AllKeys(m: Marketplace): set<MatchKey> {
    match m
    case Wb => {ExternalPrimaryId, SellerArticle, ExternalIds(NmId), ExternalIds(VendorCode)}
    case Ozon => {ExternalPrimaryId, SellerArticle, ExternalIds(ProductId), ExternalIds(OfferId)}
    case _ => {ExternalPrimaryId, SellerArticle}
  }

  function MatchKeys(l: Listing, lookup: string): set<MatchKey> {
    set k | k in AllKeys(l.marketplace) && KeyText(l, k) == lookup
  }

  /** `sorted(matched_keys)[0]` */
  function FirstKey(keys: set<MatchKey>): MatchKey {
    if ExternalIds(NmId) in keys then ExternalIds(NmId)
    else if ExternalIds(OfferId) in keys then ExternalIds(OfferId)
    else if ExternalIds(ProductId) in keys then ExternalIds(ProductId)
    else if ExternalIds(VendorCode) in keys then ExternalIds(VendorCode)
    else if ExternalPrimaryId in keys then ExternalPrimaryId
    else SellerArticle
  }

  // ---------- detail rows ----------

  /** The reasons under which a WB promotion row is about a product. */
  predicate ProductReason(reason: string) {
    reason == "wb_api_promotion_product_valid" || reason == "wb_api_promotion_product_invalid"
  }

  /** A detail row with the scope of its operation. */
  datatype Row = Row(scope: Scenario, step: StepCode, productRef: string, reason: string, listing: Option<nat>)

  datatype Family = Stage1Excel(marketplace: Marketplace) | Step(step: StepCode)

  predicate IsExcelDiscounts(row: Row) { row.scope.mode == Excel && row.scope.module_ == DiscountsExcel }

  function FamilyOf(row: Row): Family {
    if IsExcelDiscounts(row) then Stage1Excel(row.scope.marketplace) else Step(row.step)
  }

  predicate IsProductDetailRow(row: Row) {
    if Strip(row.productRef) == "" then false
    else if IsExcelDiscounts(row) then true
    else match row.step
      case OzonActionsDownload => false
      case WbPromotionsDownload => ProductReason(row.reason)
      case WbPricesDownload | WbDiscountCalculation | WbDiscountUpload => true
      case OzonActiveProductsDownload | OzonCandidateProductsDownload | OzonProductDataDownload => true
      case OzonElasticCalculation | OzonElasticUpload => true
      case NoStep | OzonConnectionCheck => false
  }

  // ---------- the resolver ----------

  datatype Conflict =
    | NoListingMatch | MultipleListingMatches | StoreMarketplaceMismatch | RowNotProductIdentifier
    | SourceScopeNotApproved | ApiDataIntegrityDuplicate

  datatype Resolution =
    | Matched(listing: nat, key: MatchKey, existingSameLink: bool)
    | Unresolved(conflict: Conflict, candidates: nat)

  predicate InScope(l: Listing, row: Row) { l.marketplace == row.scope.marketplace && l.store == row.scope.store }

  function KeysFor(l: Listing, row: Row): set<MatchKey> {
    if InScope(l, row) then MatchKeys(l, Strip(row.productRef)) else {}
  }

  function NonEmpty<K>(keys: map<nat, set<K>>): map<nat, set<K>> {
    map id | id in keys && keys[id] != {} :: keys[id]
  }

  function KeyTable(listings: map<nat, Listing>, row: Row): map<nat, set<MatchKey>> {
    map id | id in listings :: KeysFor(listings[id], row)
  }

  /** The candidates of a row, each with the keys it matched on. */
  function Candidates(listings: map<nat, Listing>, row: Row): map<nat, set<MatchKey>> {
    NonEmpty(KeyTable(listings, row))
  }

  ghost predicate SharedKey<K>(candidates: map<nat, set<K>>) {
    exists a, b :: a in candidates && b in candidates && a != b && candidates[a] * candidates[b] != {}
  }

  /** The reasons not to look at any listing, in the order they are checked. */
  function Rejected(row: Row): Option<Conflict> {
    if row.scope.store == 0 || row.scope.marketplace == UnsetMarketplace then Some(StoreMarketplaceMismatch)
    else if Strip(row.productRef) == "" || !IsProductDetailRow(row) then Some(RowNotProductIdentifier)
    else if row.scope.marketplace != Wb && row.scope.marketplace != Ozon then Some(SourceScopeNotApproved)
    else None
  }

  ghost function Choose(link: Option<nat>, candidates: map<nat, set<MatchKey>>): Resolution {
    if link.Some? then
      if candidates.Keys == {link.value} then Matched(link.value, FirstKey(candidates[link.value]), true)
      else Unresolved(MultipleListingMatches, |candidates|)
    else if |candidates| == 1 then
      var id :| id in candidates;
      Matched(id, FirstKey(candidates[id]), false)
    else if |candidates| == 0 then Unresolved(NoListingMatch, 0)
    else Unresolved(if SharedKey(candidates) then ApiDataIntegrityDuplicate else MultipleListingMatches, |candidates|)
  }

  ghost function Resolve(listings: map<nat, Listing>, row: Row): Resolution {
    if Rejected(row).Some? then Unresolved(Rejected(row).value, 0) else Choose(row.listing, Candidates(listings, row))
  }

  lemma CandidatesUseScopeOnly(a: map<nat, Listing>, b: map<nat, Listing>, row: Row)
    requires forall id :: id in a && InScope(a[id], row) ==> id in b && b[id] == a[id]
    ensures forall id :: id in Candidates(a, row) ==>
              id in Candidates(b, row) && Candidates(b, row)[id] == Candidates(a, row)[id]
  {
    forall id | id in Candidates(a, row)
      ensures id in Candidates(b, row) && Candidates(b, row)[id] == Candidates(a, row)[id]
    {
      CandidateMeaning(a, row, id);
      IsCandidate(b, row, id);
      CandidateMeaning(b, row, id);
    }
  }

  /** Only the listings of the row's own store and marketplace matter. */
  lemma ResolveUsesScopeOnly(a: map<nat, Listing>, b: map<nat, Listing>, row: Row)
    requires forall id :: id in a && InScope(a[id], row) ==> id in b && b[id] == a[id]
    requires forall id :: id in b && InScope(b[id], row) ==> id in a && a[id] == b[id]
    ensures Resolve(a, row) == Resolve(b, row)
  {
    CandidatesUseScopeOnly(a, b, row);
    CandidatesUseScopeOnly(b, a, row);
    var ca, cb := Candidates(a, row), Candidates(b, row);
    assert ca == cb;
  }

  lemma SingleKey<K>(m: map<nat, K>)
    ensures |m| == 1 <==> exists x :: m.Keys == {x}
    ensures |m| == 1 ==> forall x, y :: x in m && y in m ==> x == y
  {
    if |m.Keys| == 1 {
      var x :| x in m.Keys;
      assert |m.Keys - {x}| == 0;
      assert m.Keys == {x};
    }
  }

  lemma CandidateMeaning(listings: map<nat, Listing>, row: Row, id: nat)
    requires id in Candidates(listings, row)
    ensures id in listings && InScope(listings[id], row)
    ensures Candidates(listings, row)[id] == MatchKeys(listings[id], Strip(row.productRef)) != {}
    ensures Candidates(listings, row)[id] <= AllKeys(row.scope.marketplace)
  {
  }

  lemma IsCandidate(listings: map<nat, Listing>, row: Row, id: nat)
    requires id in listings && InScope(listings[id], row) && MatchKeys(listings[id], Strip(row.productRef)) != {}
    ensures id in Candidates(listings, row)
  {
  }

  /** When a row matches: an unlinked row with a single candidate, a linked row whose link is that candidate. */
  lemma MatchIff(listings: map<nat, Listing>, row: Row)
    requires Rejected(row).None?
    ensures var c := Candidates(listings, row); var r := Resolve(listings, row);
      && (row.listing.None? ==>
            (r.Matched? <==> |c| == 1) && (r.Matched? ==> c.Keys == {r.listing} && !r.existingSameLink))
      && (row.listing.Some? ==> (r.Matched? <==> c.Keys == {row.listing.value})
                                && (r.Matched? ==> r.listing == row.listing.value && r.existingSameLink))
      && (r.Matched? ==> r.listing in listings && InScope(listings[r.listing], row))
  {
    SingleKey(Candidates(listings, row));
    var r := Resolve(listings, row);
    if r.Matched? { CandidateMeaning(listings, row, r.listing); }
  }

  // ---------- the resolver in terms of the fields ----------

  /** The name a matched key is reported under. */
  function KeyName(k: MatchKey): string {
    match k
    case ExternalIds(NmId) => "external_ids.nmID"
    case ExternalIds(OfferId) => "external_ids.offer_id"
    case ExternalIds(ProductId) => "external_ids.product_id"
    case ExternalIds(VendorCode) => "external_ids.vendorCode"
    case ExternalPrimaryId => "external_primary_id"
    case SellerArticle => "seller_article"
  }

  lemma NameBefore(a: string, b: string, n: nat)
    requires n < |a| && n < |b| && a[..n] == b[..n] && a[n] < b[n]
    ensures StringLe(a, b)
  {
    assert a == a[..n] + a[n..] && b == a[..n] + b[n..];
    StringLePrefix(a[..n], a[n..], b[n..]);
  }

  function Rank(k: MatchKey): nat {
    match k
    case ExternalIds(NmId) => 0
    case ExternalIds(OfferId) => 1
    case ExternalIds(ProductId) => 2
    case ExternalIds(VendorCode) => 3
    case ExternalPrimaryId => 4
    case SellerArticle => 5
  }

  function Following(k: MatchKey): MatchKey
    requires k != SellerArticle
  {
    match k
    case ExternalIds(NmId) => ExternalIds(OfferId)
    case ExternalIds(OfferId) => ExternalIds(ProductId)
    case ExternalIds(ProductId) => ExternalIds(VendorCode)
    case ExternalIds(VendorCode) => ExternalPrimaryId
    case ExternalPrimaryId => SellerArticle
  }

  lemma NextName(k: MatchKey)
    requires k != SellerArticle
    ensures StringLe(KeyName(k), KeyName(Following(k)))
  {
    match k
    case ExternalIds(NmId) => NameBefore("external_ids.nmID", "external_ids.offer_id", 13);
    case ExternalIds(OfferId) => NameBefore("external_ids.offer_id", "external_ids.product_id", 13);
    case ExternalIds(ProductId) => NameBefore("external_ids.product_id", "external_ids.vendorCode", 13);
    case ExternalIds(VendorCode) => NameBefore("external_ids.vendorCode", "external_primary_id", 9);
    case ExternalPrimaryId => NameBefore("external_primary_id", "seller_article", 0);
  }

  lemma {:induction false} NamesRanked(a: MatchKey, b: MatchKey)
    requires Rank(a) <= Rank(b)
    ensures StringLe(KeyName(a), KeyName(b))
    decreases Rank(b) - Rank(a)
  {
    if a == b {
      StringLeTotal(KeyName(a), KeyName(a));
    } else {
      NextName(a);
      NamesRanked(Following(a), b);
      StringLeTransitive(KeyName(a), KeyName(Following(a)), KeyName(b));
    }
  }

  /** The key reported is the least by name of those matched. */
  lemma FirstKeyIsLeast(keys: set<MatchKey>, k: MatchKey)
    requires k in keys
    ensures FirstKey(keys) in keys && StringLe(KeyName(FirstKey(keys)), KeyName(k))
  {
    NamesRanked(FirstKey(keys), k);
  }

  predicate SaysId(ids: map<ExternalKey, Json>, key: ExternalKey, text: string) {
    key in ids && ids[key].Scalar? && Strip(ids[key].text) == text
  }

  /** The field of a listing behind a key is the row's reference, blanks around either set aside. */
  ghost predicate NamedBy(l: Listing, row: Row, k: MatchKey) {
    var ref := Strip(row.productRef);
    || (k == ExternalPrimaryId && Strip(l.externalPrimaryId) == ref)
    || (k == SellerArticle && Strip(l.sellerArticle) == ref)
    || (k == ExternalIds(NmId) && l.marketplace == Wb && SaysId(l.externalIds, NmId, ref))
    || (k == ExternalIds(VendorCode) && l.marketplace == Wb && SaysId(l.externalIds, VendorCode, ref))
    || (k == ExternalIds(ProductId) && l.marketplace == Ozon && SaysId(l.externalIds, ProductId, ref))
    || (k == ExternalIds(OfferId) && l.marketplace == Ozon && SaysId(l.externalIds, OfferId, ref))
  }

  /** The row's reference names the listing, of its own store and marketplace. */
  ghost predicate Named(listings: map<nat, Listing>, row: Row, id: nat) {
    id in listings && listings[id].store == row.scope.store && listings[id].marketplace == row.scope.marketplace
    && exists k :: NamedBy(listings[id], row, k)
  }

  ghost predicate OnlyNamed(listings: map<nat, Listing>, row: Row, id: nat) {
    Named(listings, row, id) && forall other :: Named(listings, row, other) ==> other == id
  }

  /** The steps all of whose detail rows are about products. */
  const PRODUCT_STEPS := {
    WbPricesDownload, WbDiscountCalculation, WbDiscountUpload, OzonActiveProductsDownload,
    OzonCandidateProductsDownload, OzonProductDataDownload, OzonElasticCalculation, OzonElasticUpload
  }

  /** Which rows are about a product: every Excel discount row, the rows of eight API steps, and the promotion rows with
      one of two reasons; none without a reference. */
  ghost predicate AboutProduct(row: Row) {
    Strip(row.productRef) != ""
    && ((row.scope.mode == Excel && row.scope.module_ == DiscountsExcel)
        || row.step in PRODUCT_STEPS
        || (row.step == WbPromotionsDownload
            && row.reason in {"wb_api_promotion_product_valid", "wb_api_promotion_product_invalid"}))
  }

  lemma ProductRowIff(row: Row)
    ensures IsProductDetailRow(row) <==> AboutProduct(row)
  {
  }

  /** Exactly which rows no listing is looked up for, and why. */
  lemma RejectedIff(row: Row)
    ensures Rejected(row) == Some(StoreMarketplaceMismatch) <==>
              row.scope.store == 0 || row.scope.marketplace == UnsetMarketplace
    ensures Rejected(row) == Some(RowNotProductIdentifier) <==>
              row.scope.store != 0 && row.scope.marketplace != UnsetMarketplace && !AboutProduct(row)
    ensures Rejected(row) == Some(SourceScopeNotApproved) <==>
              row.scope.store != 0 && row.scope.marketplace == OtherMarketplace && AboutProduct(row)
    ensures Rejected(row).None? <==>
              row.scope.store != 0 && row.scope.marketplace in {Wb, Ozon} && AboutProduct(row)
  {
    ProductRowIff(row);
  }

  lemma KeyIff(l: Listing, row: Row, k: MatchKey)
    requires Strip(row.productRef) != "" && InScope(l, row)
    ensures k in KeysFor(l, row) <==> NamedBy(l, row, k)
  {
  }

  /** A listing is a candidate exactly when the row's reference names it, and then by the keys it is named by. */
  lemma CandidateIff(listings: map<nat, Listing>, row: Row, id: nat)
    requires Strip(row.productRef) != ""
    ensures id in Candidates(listings, row) <==> Named(listings, row, id)
    ensures id in Candidates(listings, row) ==>
              forall k :: k in Candidates(listings, row)[id] <==> NamedBy(listings[id], row, k)
  {
    if id in listings && InScope(listings[id], row) {
      forall k ensures k in KeysFor(listings[id], row) <==> NamedBy(listings[id], row, k) {
        KeyIff(listings[id], row, k);
      }
      if Named(listings, row, id) {
        var k :| NamedBy(listings[id], row, k);
        assert k in KeysFor(listings[id], row);
      }
    }
  }

  lemma OnlyNamedIff(listings: map<nat, Listing>, row: Row, id: nat)
    requires Strip(row.productRef) != ""
    ensures OnlyNamed(listings, row, id) <==> Candidates(listings, row).Keys == {id}
  {
    forall other ensures other in Candidates(listings, row) <==> Named(listings, row, other) {
      CandidateIff(listings, row, other);
    }
  }

  /** A row finds a listing exactly when it is about a product of WB or Ozon and its reference names one listing alone,
      which for a linked row is the linked one. */
  lemma MatchedIffNamed(listings: map<nat, Listing>, row: Row, id: nat)
    ensures Resolve(listings, row).Matched? && Resolve(listings, row).listing == id <==>
              && row.scope.store != 0 && row.scope.marketplace in {Wb, Ozon} && AboutProduct(row)
              && OnlyNamed(listings, row, id) && (row.listing.Some? ==> row.listing.value == id)
    ensures Resolve(listings, row).Matched? && Resolve(listings, row).listing == id ==>
              && Resolve(listings, row).existingSameLink == row.listing.Some?
              && id in listings && NamedBy(listings[id], row, Resolve(listings, row).key)
              && forall k :: NamedBy(listings[id], row, k) ==>
                   StringLe(KeyName(Resolve(listings, row).key), KeyName(k))
  {
    RejectedIff(row);
    if Rejected(row).None? {
      MatchIff(listings, row);
      OnlyNamedIff(listings, row, id);
      CandidateIff(listings, row, id);
      SingleKey(Candidates(listings, row));
      MatchedKeyIsLeast(listings, row, id);
    }
  }

  lemma MatchedKeyIsLeast(listings: map<nat, Listing>, row: Row, id: nat)
    requires Rejected(row).None?
    ensures Resolve(listings, row).Matched? && Resolve(listings, row).listing == id ==>
              id in listings && NamedBy(listings[id], row, Resolve(listings, row).key)
              && forall k :: NamedBy(listings[id], row, k) ==>
                   StringLe(KeyName(Resolve(listings, row).key), KeyName(k))
  {
    var r, c := Resolve(listings, row), Candidates(listings, row);
    if r.Matched? && r.listing == id {
      RejectedIff(row);
      CandidateIff(listings, row, id);
      forall k | NamedBy(listings[id], row, k) ensures StringLe(KeyName(r.key), KeyName(k)) {
        FirstKeyIsLeast(c[id], k);
      }
      var k :| k in c[id];
      FirstKeyIsLeast(c[id], k);
    }
  }

  /** Why an approved, unlinked row finds none: its reference names no listing, or two by the same field, or several by
      different fields only. */
  lemma ConflictIff(listings: map<nat, Listing>, row: Row)
    requires row.scope.store != 0 && row.scope.marketplace in {Wb, Ozon} && AboutProduct(row) && row.listing.None?
    ensures var r := Resolve(listings, row);
      && (r.Unresolved? && r.conflict == NoListingMatch <==> forall id :: !Named(listings, row, id))
      && (r.Unresolved? && r.conflict == ApiDataIntegrityDuplicate <==>
            exists a, b, k :: a != b && NamedTogether(listings, row, a, b, k))
      && (r.Unresolved? ==> r.conflict in {NoListingMatch, ApiDataIntegrityDuplicate, MultipleListingMatches})
  {
    RejectedIff(row);
    var r, c := Resolve(listings, row), Candidates(listings, row);
    forall id ensures id in c <==> Named(listings, row, id) { CandidateIff(listings, row, id); }
    NamedTogetherIff(listings, row);
    if c.Keys == {} { assert |c| == 0; }
    if |c| == 0 { assert c.Keys == {}; }
    if SharedKey(c) { SharedNeedsTwo(c); }
  }

  ghost predicate NamedTogether(listings: map<nat, Listing>, row: Row, a: nat, b: nat, k: MatchKey) {
    Named(listings, row, a) && Named(listings, row, b)
    && NamedBy(listings[a], row, k) && NamedBy(listings[b], row, k)
  }

  lemma NamedTogetherIff(listings: map<nat, Listing>, row: Row)
    requires Strip(row.productRef) != ""
    ensures SharedKey(Candidates(listings, row)) <==>
              exists a, b, k :: a != b && NamedTogether(listings, row, a, b, k)
  {
    var c := Candidates(listings, row);
    if SharedKey(c) {
      var a, b :| a in c && b in c && a != b && c[a] * c[b] != {};
      var k :| k in c[a] * c[b];
      CandidateIff(listings, row, a);
      CandidateIff(listings, row, b);
      assert NamedTogether(listings, row, a, b, k);
    }
    if exists a, b, k :: a != b && NamedTogether(listings, row, a, b, k) {
      var a, b, k :| a != b && NamedTogether(listings, row, a, b, k);
      CandidateIff(listings, row, a);
      CandidateIff(listings, row, b);
      assert k in c[a] * c[b];
    }
  }

  lemma SharedNeedsTwo<K>(c: map<nat, set<K>>)
    requires SharedKey(c)
    ensures |c| > 1
  {
    var a, b :| a in c && b in c && a != b && c[a] * c[b] != {};
    SingleKey(c);
    assert c.Keys != {};
    assert |c.Keys - {a}| > 0 by { assert b in c.Keys - {a}; }
  }

  lemma {:induction false} SubsetSize<T>(a: set<T>, b: set<T>)
    requires a <= b
    ensures |a| <= |b|
  {
    if a != {} {
      var x :| x in a;
      SubsetSize(a - {x}, b - {x});
    }
  }

  lemma NotShared<K>(candidates: map<nat, set<K>>, a: nat, b: nat, k: K)
    requires !SharedKey(candidates) && a in candidates && b in candidates && a != b && k in candidates[a]
    ensures k !in candidates[b]
  {
    assert k !in candidates[a] * candidates[b];
  }

  lemma StillNotShared<K>(candidates: map<nat, set<K>>, id: nat)
    requires !SharedKey(candidates)
    ensures !SharedKey(candidates - {id})
  {
    var rest := candidates - {id};
    forall a, b | a in rest && b in rest && a != b ensures rest[a] * rest[b] == {} {
      assert a in candidates && b in candidates && candidates[a] * candidates[b] == {};
    }
  }

  lemma RestAvoids<K>(candidates: map<nat, set<K>>, keys: set<K>, id: nat, k: K)
    requires !SharedKey(candidates) && id in candidates && k in candidates[id]
    requires forall other :: other in candidates ==> candidates[other] != {} && candidates[other] <= keys
    ensures k in keys
    ensures forall other :: other in candidates - {id} ==>
      (candidates - {id})[other] != {} && (candidates - {id})[other] <= keys - {k}
  {
    forall other | other in candidates - {id} ensures candidates[other] <= keys - {k} {
      NotShared(candidates, id, other, k);
    }
  }

  /** Pigeonhole: disjoint nonempty key sets are at most as many as the keys. */
  lemma {:induction false} DisjointKeys<K>(candidates: map<nat, set<K>>, keys: set<K>)
    requires !SharedKey(candidates)
    requires forall id :: id in candidates ==> candidates[id] != {} && candidates[id] <= keys
    ensures |candidates| <= |keys|
    decreases |candidates|
  {
    if candidates.Keys != {} {
      var id :| id in candidates.Keys;
      var k :| k in candidates[id];
      var rest := candidates - {id};
      RestAvoids(candidates, keys, id, k);
      StillNotShared(candidates, id);
      assert rest.Keys == candidates.Keys - {id};
      DisjointKeys(rest, keys - {k});
    }
  }

  lemma AtMostFour<T>(a: T, b: T, c: T, d: T)
    ensures |{a, b, c, d}| <= 4
  {
    SubsetSize({a, b, c, d} - {a}, {b, c, d});
  }

  lemma FourKeys(m: Marketplace)
    ensures |AllKeys(m)| <= 4
  {
    AtMostFour(ExternalPrimaryId, SellerArticle, ExternalIds(NmId), ExternalIds(VendorCode));
    AtMostFour(ExternalPrimaryId, SellerArticle, ExternalIds(ProductId), ExternalIds(OfferId));
  }

  /** With four keys to go round, an unlinked row is ambiguous without a duplicated key for 2 to 4 candidates only. */
  lemma AmbiguityBound(listings: map<nat, Listing>, row: Row)
    requires row.listing.None? && Resolve(listings, row).Unresolved?
    requires Resolve(listings, row).conflict == MultipleListingMatches
    ensures var c := Candidates(listings, row);
      Resolve(listings, row).candidates == |c| && 2 <= |c| <= 4 && !SharedKey(c)
  {
    var c := Candidates(listings, row);
    var keys := AllKeys(row.scope.marketplace);
    forall id | id in c ensures c[id] != {} && c[id] <= keys {
      CandidateMeaning(listings, row, id);
    }
    FourKeys(row.scope.marketplace);
    DisjointKeys(c, keys);
  }

  // ---------- the resolver as a loop ----------

  function WithKey<K>(candidates: map<nat, set<K>>, k: K): set<nat> {
    set id | id in candidates && k in candidates[id]
  }

  ghost predicate Counted<K(!new)>(candidates: map<nat, set<K>>, counts: map<K, nat>) {
    forall k :: |WithKey(candidates, k)| == if k in counts then counts[k] else 0
  }

  lemma SharedIffCounted<K(!new)>(candidates: map<nat, set<K>>, counts: map<K, nat>)
    requires Counted(candidates, counts)
    ensures SharedKey(candidates) <==> exists k :: k in counts && counts[k] > 1
  {
    if SharedKey(candidates) {
      var a, b :| a in candidates && b in candidates && a != b && candidates[a] * candidates[b] != {};
      var k :| k in candidates[a] * candidates[b];
      SubsetSize({a, b}, WithKey(candidates, k));
      assert |{a, b}| == 2;
    }
    if exists k :: k in counts && counts[k] > 1 {
      var k :| k in counts && counts[k] > 1;
      var a :| a in WithKey(candidates, k);
      assert |WithKey(candidates, k) - {a}| > 0;
      var b :| b in WithKey(candidates, k) - {a};
      assert k in candidates[a] * candidates[b];
    }
  }

  function Bump<K>(counts: map<K, nat>, keys: set<K>): map<K, nat> {
    map k | k in counts.Keys + keys :: (if k in counts then counts[k] else 0) + (if k in keys then 1 else 0)
  }

  lemma WithKeyOneMore<K>(candidates: map<nat, set<K>>, id: nat, keys: set<K>, k: K)
    requires id !in candidates
    ensures |WithKey(candidates[id := keys], k)| == |WithKey(candidates, k)| + (if k in keys then 1 else 0)
  {
    assert WithKey(candidates[id := keys], k) == WithKey(candidates, k) + (if k in keys then {id} else {});
  }

  lemma CountOneMore<K(!new)>(candidates: map<nat, set<K>>, counts: map<K, nat>, id: nat, keys: set<K>)
    requires Counted(candidates, counts) && id !in candidates
    ensures Counted(candidates[id := keys], Bump(counts, keys))
  {
    forall k { WithKeyOneMore(candidates, id, keys, k); }
  }

  /** The part of a table found among the listings scanned so far. */
  function Among<K>(table: map<nat, set<K>>, scanned: set<nat>): map<nat, set<K>> {
    map id | id in table && id in scanned :: table[id]
  }

  /** Scans a table of matched keys in any order, counting how many candidates each key matched. */
  method CollectCandidates<K(!new)>(table: map<nat, set<K>>)
    returns (candidates: map<nat, set<K>>, counts: map<K, nat>)
    ensures candidates == NonEmpty(table) && Counted(candidates, counts)
  {
    candidates, counts := map[], map[];
    var done: set<nat> := {};
    while table.Keys - done != {}
      invariant done <= table.Keys && candidates == Among(NonEmpty(table), done) && Counted(candidates, counts)
      decreases table.Keys - done
    {
      var id :| id in table.Keys - done;
      if table[id] != {} {
        CountOneMore(candidates, counts, id, table[id]);
        candidates := candidates[id := table[id]];
        counts := Bump(counts, table[id]);
      }
      done := done + {id};
    }
    AllDone(table.Keys, done);
  }

  /** Whatever the order of the scan, the result is the one function of the row and the set of listings. */
  method ResolveListing(listings: map<nat, Listing>, row: Row) returns (r: Resolution)
    ensures r == Resolve(listings, row)
  {
    if Rejected(row).Some? { return Unresolved(Rejected(row).value, 0); }
    var candidates, counts := CollectCandidates(KeyTable(listings, row));
    SingleKey(candidates);
    if row.listing.Some? {
      if row.listing.value in candidates && |candidates| == 1 {
        assert candidates.Keys == {row.listing.value};
        return Matched(row.listing.value, FirstKey(candidates[row.listing.value]), true);
      }
      return Unresolved(MultipleListingMatches, |candidates|);
    }
    if |candidates| == 0 { return Unresolved(NoListingMatch, 0); }
    if |candidates| > 1 {
      SharedIffCounted(candidates, counts);
      var duplicate := exists k | k in counts :: counts[k] > 1;
      return Unresolved(if duplicate then ApiDataIntegrityDuplicate else MultipleListingMatches, |candidates|);
    }
    assert candidates.Keys != {};
    var id :| id in candidates.Keys;
    return Matched(id, FirstKey(candidates[id]), false);
  }
}
