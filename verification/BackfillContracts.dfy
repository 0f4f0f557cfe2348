/** What the backfill of listing links decides and reports, in terms of the stored fields. */
module BackfillContracts {
  import opened Common
  import opened OperationTypes
  import opened Enrichment
  import opened Backfill

  // ---------- verdicts ----------

  /** A row of an approved marketplace that is about a product. */
  ghost predicate LooksUp(row: Row) {
    row.scope.store != 0 && row.scope.marketplace in {Wb, Ozon} && AboutProduct(row)
  }

  /** A row is linked to a listing exactly when it has no link, is about a product, and its reference names that listing
      and no other of its store and marketplace. */
  lemma EnrichesIff(listings: map<nat, Listing>, row: Row, id: nat)
    ensures VerdictOf(listings, row) == Enriches(id) <==>
              LooksUp(row) && row.listing.None? && OnlyNamed(listings, row, id)
    ensures Linked(listings, row) != row ==>
              row.listing.None? && exists named :: OnlyNamed(listings, row, named)
    ensures LooksUp(row) && row.listing.None? && OnlyNamed(listings, row, id) ==>
              Linked(listings, row) == row.(listing := Some(id))
  {
    MatchedIffNamed(listings, row, id);
    var r := Resolve(listings, row);
    if r.Matched? { MatchedIffNamed(listings, row, r.listing); }
  }

  /** A row counts as linked already exactly when its reference still names its listing alone. */
  lemma AlreadyLinkedIff(listings: map<nat, Listing>, row: Row)
    ensures VerdictOf(listings, row) == AlreadyLinked <==>
              LooksUp(row) && row.listing.Some? && OnlyNamed(listings, row, row.listing.value)
  {
    var r := Resolve(listings, row);
    if r.Matched? { MatchedIffNamed(listings, row, r.listing); }
    if row.listing.Some? { MatchedIffNamed(listings, row, row.listing.value); }
  }

  /** A linked row whose reference does not name its listing alone is a conflict of several matches, however many
      listings are named. */
  lemma LinkedConflictIff(listings: map<nat, Listing>, row: Row)
    requires LooksUp(row) && row.listing.Some?
    ensures VerdictOf(listings, row) == Skips(MultipleListingMatches) <==>
              !OnlyNamed(listings, row, row.listing.value)
  {
    RejectedIff(row);
    AlreadyLinkedIff(listings, row);
    MatchIff(listings, row);
  }

  /** Why a row without a link is skipped. */
  lemma SkippedIff(listings: map<nat, Listing>, row: Row)
    ensures VerdictOf(listings, row) == Skips(StoreMarketplaceMismatch) <==>
              row.scope.store == 0 || row.scope.marketplace == UnsetMarketplace
    ensures VerdictOf(listings, row) == Skips(RowNotProductIdentifier) <==>
              row.scope.store != 0 && row.scope.marketplace != UnsetMarketplace && !AboutProduct(row)
    ensures VerdictOf(listings, row) == Skips(SourceScopeNotApproved) <==>
              row.scope.store != 0 && row.scope.marketplace == OtherMarketplace && AboutProduct(row)
    ensures row.listing.None? ==> (VerdictOf(listings, row) == Skips(NoListingMatch) <==>
              LooksUp(row) && forall id :: !Named(listings, row, id))
    ensures row.listing.None? ==> (VerdictOf(listings, row) == Skips(ApiDataIntegrityDuplicate) <==>
              LooksUp(row) && exists a, b, k :: a != b && NamedTogether(listings, row, a, b, k))
  {
    RejectedIff(row);
    if LooksUp(row) {
      MatchIff(listings, row);
      if row.listing.None? { ConflictIff(listings, row); }
    }
  }

  lemma FamilyIff(row: Row, m: Marketplace, step: StepCode)
    ensures FamilyOf(row) == Stage1Excel(m) <==>
              row.scope.mode == Excel && row.scope.module_ == DiscountsExcel && row.scope.marketplace == m
    ensures FamilyOf(row) == Step(step) <==>
              (row.scope.mode != Excel || row.scope.module_ != DiscountsExcel) && row.step == step
  {
  }

  // ---------- the report ----------

  /** How many entries are of a kind. */
  ghost function Count(entries: seq<Entry>, kind: Entry -> bool): nat {
    |set i: nat | i < |entries| && kind(entries[i])|
  }

  lemma CountOneMore(entries: seq<Entry>, kind: Entry -> bool)
    requires entries != []
    ensures var n := |entries| - 1;
      Count(entries, kind) == Count(entries[..n], kind) + if kind(entries[n]) then 1 else 0
  {
    var n := |entries| - 1;
    assert (set i: nat | i < |entries| && kind(entries[i])) ==
           (set i: nat | i < n && kind(entries[..n][i])) + if kind(entries[n]) then {n} else {};
  }

  ghost predicate IsEnriched(e: Entry) { e.verdict.Enriches? }
  ghost predicate IsLinked(e: Entry) { e.verdict == AlreadyLinked }
  ghost predicate IsSkipped(e: Entry) { e.verdict.Skips? }

  ghost function WithConflict(c: Conflict): Entry -> bool { (e: Entry) => e.verdict == Skips(c) }
  ghost function InFamily(f: Family): Entry -> bool { (e: Entry) => e.family == f }
  ghost function EnrichedIn(f: Family): Entry -> bool { (e: Entry) => e.family == f && e.verdict.Enriches? }
  ghost function SkippedIn(f: Family): Entry -> bool { (e: Entry) => e.family == f && e.verdict.Skips? }

  /** The report's totals are the numbers of rows of each outcome. */
  lemma {:induction false} OutcomesCounted(entries: seq<Entry>)
    ensures TallyOf(entries).enriched == Count(entries, IsEnriched)
    ensures TallyOf(entries).idempotent == Count(entries, IsLinked)
    ensures TallyOf(entries).skipped == Count(entries, IsSkipped)
  {
    if entries != [] {
      OutcomesCounted(entries[..|entries| - 1]);
      CountOneMore(entries, IsEnriched);
      CountOneMore(entries, IsLinked);
      CountOneMore(entries, IsSkipped);
    }
  }

  /** And so are its counts by conflict and by family. */
  lemma {:induction false} ConflictsCounted(entries: seq<Entry>, c: Conflict)
    ensures TallyOf(entries).conflicts[c] == Count(entries, WithConflict(c))
  {
    if entries != [] {
      ConflictsCounted(entries[..|entries| - 1], c);
      CountOneMore(entries, WithConflict(c));
    }
  }

  lemma OneInFamily(e: Entry, f: Family)
    ensures One(e).families[f] == if InFamily(f)(e) then 1 else 0
    ensures One(e).enrichedByFamily[f] == if EnrichedIn(f)(e) then 1 else 0
    ensures One(e).skippedByFamily[f] == if SkippedIn(f)(e) then 1 else 0
  {
  }

  lemma AddedInFamily(a: Tally, b: Tally, f: Family)
    ensures Add(a, b).families[f] == a.families[f] + b.families[f]
    ensures Add(a, b).enrichedByFamily[f] == a.enrichedByFamily[f] + b.enrichedByFamily[f]
    ensures Add(a, b).skippedByFamily[f] == a.skippedByFamily[f] + b.skippedByFamily[f]
  {
  }

  lemma {:induction false} FamiliesCounted(entries: seq<Entry>, f: Family)
    ensures TallyOf(entries).families[f] == Count(entries, InFamily(f))
    ensures TallyOf(entries).enrichedByFamily[f] == Count(entries, EnrichedIn(f))
    ensures TallyOf(entries).skippedByFamily[f] == Count(entries, SkippedIn(f))
  {
    if entries != [] {
      var most, last := entries[..|entries| - 1], entries[|entries| - 1];
      FamiliesCounted(most, f);
      OneInFamily(last, f);
      AddedInFamily(TallyOf(most), One(last), f);
      CountOneMore(entries, InFamily(f));
      CountOneMore(entries, EnrichedIn(f));
      CountOneMore(entries, SkippedIn(f));
    }
  }

  /** The backfill of a range without a limit looks at the rows from `start` to `end`, both included. */
  lemma SelectedIff(ids: set<nat>, start: nat, end: nat, id: nat)
    ensures id in Selected(ids, Some(start), Some(end), 0) <==> id in ids && start <= id <= end
    ensures id in Selected(ids, Some(start), None, 0) <==> id in ids && start <= id
    ensures id in Selected(ids, None, Some(end), 0) <==> id in ids && id <= end
    ensures id in Selected(ids, None, None, 0) <==> id in ids
  {
  }

  /** No scope violations are reported exactly when every linked row has a listing of its own store and marketplace. */
  lemma NoViolationsIff(listings: map<nat, Listing>, rows: map<nat, Row>)
    requires Backfill.Valid(listings, rows)
    ensures ScopeViolations(listings, rows) == 0 <==>
              forall id :: id in rows && rows[id].listing.Some? ==>
                listings[rows[id].listing.value].store == rows[id].scope.store
                && listings[rows[id].listing.value].marketplace == rows[id].scope.marketplace
  {
    var stores := set id | id in rows && rows[id].listing.Some?
                     && listings[rows[id].listing.value].store != rows[id].scope.store;
    var markets := set id | id in rows && rows[id].listing.Some?
                     && listings[rows[id].listing.value].marketplace != rows[id].scope.marketplace;
    if forall id :: id in rows && rows[id].listing.Some? ==>
        listings[rows[id].listing.value].store == rows[id].scope.store
        && listings[rows[id].listing.value].marketplace == rows[id].scope.marketplace {
      assert stores == {} && markets == {};
    }
    if ScopeViolations(listings, rows) == 0 {
      assert stores == {} && markets == {};
      forall id | id in rows && rows[id].listing.Some?
        ensures listings[rows[id].listing.value].store == rows[id].scope.store
        ensures listings[rows[id].listing.value].marketplace == rows[id].scope.marketplace
      {
        assert id !in stores && id !in markets;
      }
    }
  }

  /** No product reference is reported as changed exactly when every row is still there with its reference. */
  lemma NoChangesIff(before: map<nat, Row>, after: map<nat, Row>)
    ensures ChangedRefs(before, after) == 0 <==>
              forall id :: id in before ==> id in after && after[id].productRef == before[id].productRef
  {
    var changed := set id | id in before && (id !in after || after[id].productRef != before[id].productRef);
    if ChangedRefs(before, after) == 0 {
      assert changed == {};
      forall id | id in before ensures id in after && after[id].productRef == before[id].productRef {
        assert id !in changed;
      }
    } else {
      assert changed != {};
    }
  }
}
