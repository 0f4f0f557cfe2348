/** Backfill of listing links over a range of detail rows, as a dry run or for real, with its report. */
module Backfill {
  import opened Common
  import opened OperationTypes
  import opened Enrichment

  // ---------- one row ----------

  /** What the backfill does with a row: link it, find it already linked, or skip it. */
  datatype Verdict = Enriches(listing: nat) | AlreadyLinked | Skips(conflict: Conflict)

  ghost function VerdictOf(listings: map<nat, Listing>, row: Row): Verdict {
    match Resolve(listings, row)
    case Unresolved(conflict, _) => Skips(conflict)
    case Matched(id, _, existing) => if existing then AlreadyLinked else Enriches(id)
  }

  ghost function Linked(listings: map<nat, Listing>, row: Row): Row {
    match VerdictOf(listings, row)
    case Enriches(id) => row.(listing := Some(id))
    case _ => row
  }

  lemma VerdictMeaning(listings: map<nat, Listing>, row: Row)
    ensures VerdictOf(listings, row).Enriches? ==>
              && row.listing.None? && VerdictOf(listings, row).listing in listings
              && InScope(listings[VerdictOf(listings, row).listing], row)
    ensures VerdictOf(listings, row).AlreadyLinked? ==> row.listing.Some?
  {
    if Rejected(row).None? { MatchIff(listings, row); }
  }

  /** Linking a row keeps everything else of it, never replaces a link, and makes the next verdict "already linked". */
  lemma LinkingSettles(listings: map<nat, Listing>, row: Row)
    ensures var after := Linked(listings, row);
      && after.(listing := row.listing) == row && (row.listing.Some? ==> after.listing == row.listing)
      && VerdictOf(listings, after) == match VerdictOf(listings, row)
                                       case Enriches(_) => AlreadyLinked
                                       case verdict => verdict
  {
    VerdictMeaning(listings, row);
    if VerdictOf(listings, row).Enriches? {
      MatchIff(listings, row);
      var after := Linked(listings, row);
      assert forall id :: id in listings ==> KeysFor(listings[id], after) == KeysFor(listings[id], row);
      assert KeyTable(listings, after) == KeyTable(listings, row);
      assert IsProductDetailRow(after) == IsProductDetailRow(row);
      assert Rejected(after) == Rejected(row);
    }
  }

  // ---------- tallies ----------

  datatype Entry = Entry(family: Family, verdict: Verdict)

  datatype Tally = Tally(scanned: nat, enriched: nat, idempotent: nat, skipped: nat,
                         conflicts: multiset<Conflict>, families: multiset<Family>,
                         enrichedByFamily: multiset<Family>, skippedByFamily: multiset<Family>)

  const NOTHING := Tally(0, 0, 0, 0, multiset{}, multiset{}, multiset{}, multiset{})

  function Add(a: Tally, b: Tally): Tally {
    Tally(a.scanned + b.scanned, a.enriched + b.enriched, a.idempotent + b.idempotent, a.skipped + b.skipped,
          a.conflicts + b.conflicts, a.families + b.families,
          a.enrichedByFamily + b.enrichedByFamily, a.skippedByFamily + b.skippedByFamily)
  }

  function One(e: Entry): Tally {
    match e.verdict
    case Enriches(_) => Tally(1, 1, 0, 0, multiset{}, multiset{e.family}, multiset{e.family}, multiset{})
    case AlreadyLinked => Tally(1, 0, 1, 0, multiset{}, multiset{e.family}, multiset{}, multiset{})
    case Skips(c) => Tally(1, 0, 0, 1, multiset{c}, multiset{e.family}, multiset{}, multiset{e.family})
  }

  function TallyOf(entries: seq<Entry>): Tally {
    if entries == [] then NOTHING else Add(TallyOf(entries[..|entries| - 1]), One(entries[|entries| - 1]))
  }

  lemma AddLaws(a: Tally, b: Tally, c: Tally)
    ensures Add(Add(a, b), c) == Add(a, Add(b, c)) && Add(a, NOTHING) == a
  {
  }

  lemma {:induction false} TallyAppend(a: seq<Entry>, b: seq<Entry>)
    ensures TallyOf(a + b) == Add(TallyOf(a), TallyOf(b))
  {
    if b == [] {
      assert a + b == a;
      AddLaws(TallyOf(a), NOTHING, NOTHING);
    } else {
      var most, last := b[..|b| - 1], b[|b| - 1];
      assert (a + b)[..|a + b| - 1] == a + most && (a + b)[|a + b| - 1] == last;
      TallyAppend(a, most);
      AddLaws(TallyOf(a), TallyOf(most), One(last));
    }
  }

  /** Each scanned row is counted once, and each skipped one under one conflict class and one family. */
  predicate Balanced(t: Tally) {
    && t.scanned == t.enriched + t.idempotent + t.skipped == |t.families|
    && |t.conflicts| == |t.skippedByFamily| == t.skipped && |t.enrichedByFamily| == t.enriched
  }

  lemma OneBalanced(e: Entry)
    ensures Balanced(One(e)) && One(e).scanned == 1
  {
  }

  lemma AddBalanced(a: Tally, b: Tally)
    requires Balanced(a) && Balanced(b)
    ensures Balanced(Add(a, b))
  {
    assert |a.families + b.families| == |a.families| + |b.families|;
    assert |a.conflicts + b.conflicts| == |a.conflicts| + |b.conflicts|;
    assert |a.skippedByFamily + b.skippedByFamily| == |a.skippedByFamily| + |b.skippedByFamily|;
    assert |a.enrichedByFamily + b.enrichedByFamily| == |a.enrichedByFamily| + |b.enrichedByFamily|;
  }

  lemma {:induction false} TallyConserves(entries: seq<Entry>)
    ensures Balanced(TallyOf(entries))
    ensures var t := TallyOf(entries);
      && t.scanned == t.enriched + t.idempotent + t.skipped == |t.families| == |entries|
      && |t.conflicts| == |t.skippedByFamily| == t.skipped && |t.enrichedByFamily| == t.enriched
  {
    if entries != [] {
      var most, last := entries[..|entries| - 1], entries[|entries| - 1];
      TallyConserves(most);
      OneBalanced(last);
      AddBalanced(TallyOf(most), One(last));
    }
  }

  predicate Settled(before: Entry, after: Entry) {
    && after.family == before.family
    && after.verdict == match before.verdict
                        case Enriches(_) => AlreadyLinked
                        case verdict => verdict
  }

  /** The tally of a second run: nothing is enriched, what was is now found linked. */
  function Settle(t: Tally): Tally {
    t.(enriched := 0, idempotent := t.idempotent + t.enriched, enrichedByFamily := multiset{})
  }

  lemma SettleAdds(a: Tally, b: Tally)
    ensures Settle(Add(a, b)) == Add(Settle(a), Settle(b))
  {
  }

  lemma OneSettled(before: Entry, after: Entry)
    requires Settled(before, after)
    ensures One(after) == Settle(One(before))
  {
  }

  lemma {:induction false} TallySettled(before: seq<Entry>, after: seq<Entry>)
    requires |after| == |before| && forall i :: 0 <= i < |before| ==> Settled(before[i], after[i])
    ensures TallyOf(after) == Settle(TallyOf(before))
  {
    if before != [] {
      var n := |before| - 1;
      TallySettled(before[..n], after[..n]);
      OneSettled(before[n], after[n]);
      SettleAdds(TallyOf(before[..n]), One(before[n]));
    }
  }

  // ---------- runs over a set of rows ----------

  /** How rows are judged and linked, given the listings. */
  datatype Policy = Policy(verdict: Row -> Verdict, link: Row -> Row)

  ghost function PolicyFor(listings: map<nat, Listing>): Policy {
    Policy(row => VerdictOf(listings, row), row => Linked(listings, row))
  }

  ghost predicate Settling(p: Policy) {
    forall row :: Settled(Entry(FamilyOf(row), p.verdict(row)), Entry(FamilyOf(p.link(row)), p.verdict(p.link(row))))
                  && p.link(p.link(row)) == p.link(row)
  }

  lemma PolicySettles(listings: map<nat, Listing>)
    ensures Settling(PolicyFor(listings))
  {
    forall row { LinkingSettles(listings, row); }
  }

  ghost function Entries(p: Policy, rows: map<nat, Row>, ids: seq<nat>): seq<Entry>
    requires forall id :: id in ids ==> id in rows
  {
    seq(|ids|, i requires 0 <= i < |ids| =>
      assert ids[i] in ids; Entry(FamilyOf(rows[ids[i]]), p.verdict(rows[ids[i]])))
  }

  ghost function EnrichAll(p: Policy, rows: map<nat, Row>, ids: seq<nat>): map<nat, Row> {
    map id | id in rows :: if id in ids then p.link(rows[id]) else rows[id]
  }

  function InRange(id: nat, start: Option<nat>, end: Option<nat>): bool {
    (start.Some? ==> start.value <= id) && (end.Some? ==> id <= end.value)
  }

  function Take(ids: seq<nat>, limit: nat): (taken: seq<nat>)
    ensures taken <= ids && (forall id :: id in taken ==> id in ids)
    ensures (limit == 0 ==> taken == ids) && (limit != 0 ==> |taken| <= limit)
  {
    if limit == 0 || |ids| <= limit then ids else ids[..limit]
  }

  /** The scanned ids: those in range, in increasing order, at most `limit` of them (0 for no limit). */
  function Selected(ids: set<nat>, start: Option<nat>, end: Option<nat>, limit: nat): (selected: seq<nat>)
    ensures forall i, j :: 0 <= i < j < |selected| ==> selected[i] < selected[j]
    ensures forall id :: id in selected ==> id in ids && InRange(id, start, end)
    ensures limit == 0 ==> forall id :: id in ids && InRange(id, start, end) ==> id in selected
    ensures limit != 0 ==> |selected| <= limit
  {
    Take(Ordered(set id | id in ids && InRange(id, start, end)), limit)
  }

  ghost predicate Valid(listings: map<nat, Listing>, rows: map<nat, Row>) {
    forall id :: id in rows && rows[id].listing.Some? ==> rows[id].listing.value in listings
  }

  /** Rows whose listing belongs to another store, counted again when it belongs to another marketplace. */
  function ScopeViolations(listings: map<nat, Listing>, rows: map<nat, Row>): nat
    requires Valid(listings, rows)
  {
    |set id | id in rows && rows[id].listing.Some? && listings[rows[id].listing.value].store != rows[id].scope.store|
    + |set id | id in rows && rows[id].listing.Some?
                && listings[rows[id].listing.value].marketplace != rows[id].scope.marketplace|
  }

  /** A limit cuts the scan only when that many rows were scanned, and what it cuts off comes after what it keeps. */
  lemma LimitCutsTail(ids: set<nat>, start: Option<nat>, end: Option<nat>, limit: nat, id: nat)
    requires id in ids && InRange(id, start, end) && id !in Selected(ids, start, end, limit)
    ensures limit != 0 && |Selected(ids, start, end, limit)| == limit
    ensures forall x :: x in Selected(ids, start, end, limit) ==> x < id
  {
    var all := Ordered(set id | id in ids && InRange(id, start, end));
    assert id in all;
    var k :| 0 <= k < |all| && all[k] == id;
    assert Selected(ids, start, end, limit) == all[..limit];
    assert forall j :: 0 <= j < limit ==> all[j] in all[..limit];
  }

  /** The data the checksum digests: every id with its product reference, in id order. */
  function ProductRefs(rows: map<nat, Row>): seq<(nat, string)> {
    var ids := Ordered(rows.Keys);
    seq(|ids|, i requires 0 <= i < |ids| => assert ids[i] in ids; (ids[i], rows[ids[i]].productRef))
  }

  /** A run leaves every row's other fields, every set link and the scope violations as they were. */
  lemma EnrichAllFrame(listings: map<nat, Listing>, rows: map<nat, Row>, ids: seq<nat>)
    requires Valid(listings, rows)
    ensures var after := EnrichAll(PolicyFor(listings), rows, ids);
      && Valid(listings, after) && after.Keys == rows.Keys
      && (forall id :: id in rows ==> after[id].(listing := rows[id].listing) == rows[id])
      && (forall id :: id in rows && rows[id].listing.Some? ==> after[id] == rows[id])
      && ProductRefs(after) == ProductRefs(rows)
      && ScopeViolations(listings, after) == ScopeViolations(listings, rows)
  {
    var after := EnrichAll(PolicyFor(listings), rows, ids);
    forall id | id in rows
      ensures after[id].(listing := rows[id].listing) == rows[id]
      ensures rows[id].listing.Some? ==> after[id] == rows[id]
      ensures rows[id].listing.None? && after[id].listing.Some? ==>
                after[id].listing.value in listings && InScope(listings[after[id].listing.value], rows[id])
    {
      VerdictMeaning(listings, rows[id]);
    }
    SameViolations(listings, rows, after);
    assert after.Keys == rows.Keys;
    forall i | 0 <= i < |Ordered(rows.Keys)| ensures ProductRefs(after)[i] == ProductRefs(rows)[i] {
      assert Ordered(rows.Keys)[i] in Ordered(rows.Keys);
    }
  }

  lemma SameViolations(listings: map<nat, Listing>, rows: map<nat, Row>, after: map<nat, Row>)
    requires Valid(listings, rows) && after.Keys == rows.Keys
    requires forall id :: id in rows ==> after[id].scope == rows[id].scope
    requires forall id :: id in rows && rows[id].listing.Some? ==> after[id] == rows[id]
    requires forall id :: id in rows && rows[id].listing.None? && after[id].listing.Some? ==>
                            after[id].listing.value in listings && InScope(listings[after[id].listing.value], rows[id])
    ensures Valid(listings, after) && ScopeViolations(listings, after) == ScopeViolations(listings, rows)
  {
    assert (set id | id in after && after[id].listing.Some?
                     && listings[after[id].listing.value].store != after[id].scope.store)
        == (set id | id in rows && rows[id].listing.Some?
                     && listings[rows[id].listing.value].store != rows[id].scope.store);
    assert (set id | id in after && after[id].listing.Some?
                     && listings[after[id].listing.value].marketplace != after[id].scope.marketplace)
        == (set id | id in rows && rows[id].listing.Some?
                     && listings[rows[id].listing.value].marketplace != rows[id].scope.marketplace);
  }

  lemma EntriesSettled(p: Policy, rows: map<nat, Row>, ids: seq<nat>)
    requires Settling(p) && forall id :: id in ids ==> id in rows
    ensures var first, second := Entries(p, rows, ids), Entries(p, EnrichAll(p, rows, ids), ids);
      |first| == |second| && forall i :: 0 <= i < |first| ==> Settled(first[i], second[i])
  {
    var after := EnrichAll(p, rows, ids);
    forall i | 0 <= i < |ids| ensures Settled(Entries(p, rows, ids)[i], Entries(p, after, ids)[i]) {
      var row := rows[ids[i]];
      assert ids[i] in ids && after[ids[i]] == p.link(row);
    }
  }

  /** Running again over the same rows enriches none; what was enriched is now idempotent, the rest is reported
      alike. */
  lemma SecondRun(p: Policy, rows: map<nat, Row>, ids: seq<nat>)
    requires Settling(p) && forall id :: id in ids ==> id in rows
    ensures TallyOf(Entries(p, EnrichAll(p, rows, ids), ids)) == Settle(TallyOf(Entries(p, rows, ids)))
  {
    EntriesSettled(p, rows, ids);
    TallySettled(Entries(p, rows, ids), Entries(p, EnrichAll(p, rows, ids), ids));
  }

  lemma SecondRunChangesNothing(p: Policy, rows: map<nat, Row>, ids: seq<nat>)
    requires Settling(p)
    ensures EnrichAll(p, EnrichAll(p, rows, ids), ids) == EnrichAll(p, rows, ids)
  {
    var after := EnrichAll(p, rows, ids);
    forall id | id in rows ensures EnrichAll(p, after, ids)[id] == after[id] {
      var row := rows[id];
      assert p.link(p.link(row)) == p.link(row);
    }
  }

  /** Two write runs of the backfill over the same range: the second selects the same rows, enriches none, finds
      idempotent what the first enriched, reports everything else alike, and changes no row. */
  lemma SecondBackfill(listings: map<nat, Listing>, rows: map<nat, Row>, start: Option<nat>, end: Option<nat>,
                       limit: nat)
    ensures var p, ids := PolicyFor(listings), Selected(rows.Keys, start, end, limit);
      var after := EnrichAll(p, rows, ids);
      && after.Keys == rows.Keys && Selected(after.Keys, start, end, limit) == ids
      && TallyOf(Entries(p, after, ids)) == Settle(TallyOf(Entries(p, rows, ids)))
      && EnrichAll(p, after, ids) == after
  {
    var p, ids := PolicyFor(listings), Selected(rows.Keys, start, end, limit);
    PolicySettles(listings);
    assert EnrichAll(p, rows, ids).Keys == rows.Keys;
    SecondRun(p, rows, ids);
    SecondRunChangesNothing(p, rows, ids);
  }

  lemma EntriesOutside(p: Policy, rows: map<nat, Row>, a: seq<nat>, b: seq<nat>)
    requires forall id :: id in b ==> id in rows && id !in a
    ensures Entries(p, EnrichAll(p, rows, a), b) == Entries(p, rows, b)
  {
    forall i | 0 <= i < |b| ensures EnrichAll(p, rows, a)[b[i]] == rows[b[i]] { assert b[i] in b; }
  }

  lemma EntriesAppend(p: Policy, rows: map<nat, Row>, a: seq<nat>, b: seq<nat>)
    requires forall id :: id in a || id in b ==> id in rows
    ensures forall id :: id in a + b ==> id in rows
    ensures Entries(p, rows, a + b) == Entries(p, rows, a) + Entries(p, rows, b)
  {
  }

  /** Rows outside a run are seen by a later run as before: the reports of disjoint runs add up. */
  lemma DisjointRunsAdd(p: Policy, rows: map<nat, Row>, a: seq<nat>, b: seq<nat>)
    requires forall id :: id in a || id in b ==> id in rows
    requires forall id :: id in b ==> id !in a
    ensures forall id :: id in a + b ==> id in rows
    ensures TallyOf(Entries(p, rows, a + b)) ==
            Add(TallyOf(Entries(p, rows, a)), TallyOf(Entries(p, EnrichAll(p, rows, a), b)))
  {
    EntriesOutside(p, rows, a, b);
    EntriesAppend(p, rows, a, b);
    TallyAppend(Entries(p, rows, a), Entries(p, rows, b));
  }

  /** One run over two lists of rows writes what the two runs one after the other write. */
  lemma DisjointRunsWrite(p: Policy, rows: map<nat, Row>, a: seq<nat>, b: seq<nat>)
    requires forall id :: id in b ==> id !in a
    ensures EnrichAll(p, EnrichAll(p, rows, a), b) == EnrichAll(p, rows, a + b)
  {
  }

  lemma SameMembersEmpty(a: seq<nat>, b: seq<nat>)
    requires forall x :: x in a <==> x in b
    ensures a == [] ==> b == []
  {
    if b != [] { assert b[0] in a; }
  }

  lemma {:induction false} IncreasingUnique(a: seq<nat>, b: seq<nat>)
    requires forall i, j :: 0 <= i < j < |a| ==> a[i] < a[j]
    requires forall i, j :: 0 <= i < j < |b| ==> b[i] < b[j]
    requires forall x :: x in a <==> x in b
    ensures a == b
  {
    SameMembersEmpty(a, b);
    SameMembersEmpty(b, a);
    if a != [] {
      assert a[0] in b && b[0] in a;
      assert a == [a[0]] + a[1..] && b == [b[0]] + b[1..];
      assert a[0] == b[0];
      assert forall x :: x in a[1..] <==> x in a && x != a[0];
      assert forall x :: x in b[1..] <==> x in b && x != b[0];
      IncreasingUnique(a[1..], b[1..]);
    }
  }

  lemma IncreasingAppend(a: seq<nat>, b: seq<nat>, middle: nat)
    requires forall i, j :: 0 <= i < j < |a| ==> a[i] < a[j]
    requires forall i, j :: 0 <= i < j < |b| ==> b[i] < b[j]
    requires (forall x :: x in a ==> x <= middle) && (forall x :: x in b ==> middle < x)
    ensures forall i, j :: 0 <= i < j < |a + b| ==> (a + b)[i] < (a + b)[j]
  {
    assert forall i :: 0 <= i < |a| ==> a[i] in a;
    assert forall i :: 0 <= i < |b| ==> b[i] in b;
  }

  /** Unlimited scans of two adjacent id ranges are together the scan of their union. */
  lemma AdjacentRanges(ids: set<nat>, start: Option<nat>, middle: nat, end: Option<nat>)
    requires (start.Some? ==> start.value <= middle) && (end.Some? ==> middle <= end.value)
    ensures Selected(ids, start, Some(middle), 0) + Selected(ids, Some(middle + 1), end, 0)
            == Selected(ids, start, end, 0)
  {
    var a, b := Selected(ids, start, Some(middle), 0), Selected(ids, Some(middle + 1), end, 0);
    var whole := Selected(ids, start, end, 0);
    IncreasingAppend(a, b, middle);
    forall x ensures x in a + b <==> x in whole {
      assert x in a <==> x in ids && InRange(x, start, Some(middle));
      assert x in b <==> x in ids && InRange(x, Some(middle + 1), end);
      assert x in whole <==> x in ids && InRange(x, start, end);
    }
    IncreasingUnique(a + b, whole);
  }

  /** Running over one list of rows and then over another reports, in sum, and writes what one run over `whole` does. */
  ghost predicate TwoRunsAreOne(p: Policy, rows: map<nat, Row>, a: seq<nat>, b: seq<nat>, whole: seq<nat>) {
    var between := EnrichAll(p, rows, a);
    && (forall id :: id in whole || id in a || id in b ==> id in rows)
    && between.Keys == rows.Keys
    && TallyOf(Entries(p, rows, whole)) == Add(TallyOf(Entries(p, rows, a)), TallyOf(Entries(p, between, b)))
    && EnrichAll(p, between, b) == EnrichAll(p, rows, whole)
  }

  lemma DisjointBackfills(p: Policy, rows: map<nat, Row>, a: seq<nat>, b: seq<nat>)
    requires (forall id :: id in a ==> id in rows) && forall id :: id in b ==> id in rows && id !in a
    ensures TwoRunsAreOne(p, rows, a, b, a + b)
  {
    DisjointRunsAdd(p, rows, a, b);
    DisjointRunsWrite(p, rows, a, b);
  }

  /** Backfilling two adjacent id ranges without a limit, one after the other: the reports add up to the report over the
      union, and the rows end up the same. */
  lemma AdjacentBackfillsAdd(p: Policy, rows: map<nat, Row>, start: Option<nat>, middle: nat, end: Option<nat>)
    requires (start.Some? ==> start.value <= middle) && (end.Some? ==> middle <= end.value)
    ensures var a, b := Selected(rows.Keys, start, Some(middle), 0), Selected(rows.Keys, Some(middle + 1), end, 0);
      TwoRunsAreOne(p, rows, a, b, Selected(rows.Keys, start, end, 0))
  {
    var a, b := Selected(rows.Keys, start, Some(middle), 0), Selected(rows.Keys, Some(middle + 1), end, 0);
    AdjacentRanges(rows.Keys, start, middle, end);
    forall id | id in b ensures id in rows && id !in a { assert InRange(id, Some(middle + 1), end); }
    DisjointBackfills(p, rows, a, b);
  }

  // ---------- the services ----------

  datatype Report = Report(dryRun: bool, tally: Tally, rowCountBefore: nat, rowCountAfter: nat,
                           checksumBefore: seq<(nat, string)>, checksumAfter: seq<(nat, string)>,
                           changedProductRefs: nat, scopeViolations: nat)

  function ChangedRefs(before: map<nat, Row>, after: map<nat, Row>): nat {
    |set id | id in before && (id !in after || after[id].productRef != before[id].productRef)|
  }

  class DetailRowTable {
    const listings: map<nat, Listing>
    var rows: map<nat, Row>

    constructor (listings: map<nat, Listing>, rows: map<nat, Row>)
      ensures this.listings == listings && this.rows == rows
    {
      this.listings, this.rows := listings, rows;
    }

    /** Resolves a row as it was read earlier; writes the link unless the stored row has one by now. */
    method Enrich(id: nat, seen: Row, dryRun: bool) returns (r: Resolution)
      requires id in rows
      modifies this`rows
      ensures var verdict, stored := VerdictOf(listings, seen), old(rows)[id];
        if dryRun || !verdict.Enriches? then r == Resolve(listings, seen) && rows == old(rows)
        else if stored.listing.Some? then r == Resolve(listings, stored) && rows == old(rows)
        else r == Resolve(listings, seen) && rows == old(rows)[id := stored.(listing := Some(verdict.listing))]
    {
      r := ResolveListing(listings, seen);
      if r.Unresolved? || r.existingSameLink { return; }
      VerdictMeaning(listings, seen);
      assert InScope(listings[r.listing], seen);
      if dryRun { return; }
      var locked := rows[id];
      if locked.listing.Some? {
        r := ResolveListing(listings, locked);
        return;
      }
      rows := rows[id := locked.(listing := Some(r.listing))];
    }

    /** Enrichment of a row that is still stored as it was read. */
    method EnrichUnchanged(id: nat, row: Row, dryRun: bool) returns (verdict: Verdict)
      requires id in rows && rows[id] == row
      modifies this`rows
      ensures verdict == VerdictOf(listings, row)
      ensures rows == if dryRun then old(rows) else old(rows)[id := Linked(listings, row)]
    {
      VerdictMeaning(listings, row);
      var r := Enrich(id, row, dryRun);
      verdict := Judged(r);
    }

    /** The loop over the selected rows, each as it was read before the loop. */
    method Scan(ids: seq<nat>, dryRun: bool) returns (tally: Tally)
      requires forall id :: id in ids ==> id in rows
      requires forall i, j :: 0 <= i < j < |ids| ==> ids[i] < ids[j]
      modifies this`rows
      ensures rows == if dryRun then old(rows) else EnrichAll(PolicyFor(listings), old(rows), ids)
      ensures tally == TallyOf(Entries(PolicyFor(listings), old(rows), ids))
    {
      var queryset := rows;
      ghost var p := PolicyFor(listings);
      tally := NOTHING;
      for n := 0 to |ids|
        invariant rows == RowsAfter(p, queryset, ids, n, dryRun)
        invariant tally == TallyAfter(p, queryset, ids, n)
      {
        var id := ids[n];
        var row := queryset[id];
        StoredRowUnchanged(p, queryset, ids, n, dryRun);
        var verdict := EnrichUnchanged(id, row, dryRun);
        tally := Add(tally, One(Entry(FamilyOf(row), verdict)));
        NextRow(p, queryset, ids, n, dryRun);
      }
      assert ids[..|ids|] == ids;
    }

    /** An empty table makes the high-water filter raise; otherwise the report is a function of the rows before the run,
        the same for a dry run as for a write run. */
    method Backfill(dryRun: bool, limit: nat, start: Option<nat>, end: Option<nat>) returns (report: Result<Report>)
      requires Valid(listings, rows)
      modifies this`rows
      ensures Valid(listings, rows)
      ensures report.Raised? <==> old(rows) == map[]
      ensures report.Raised? ==> rows == old(rows)
      ensures var p, ids := PolicyFor(listings), Selected(old(rows).Keys, start, end, limit);
        report.Ok? ==>
          && rows == (if dryRun then old(rows) else EnrichAll(p, old(rows), ids))
          && report.value == Report(dryRun, TallyOf(Entries(p, old(rows), ids)), |old(rows)|, |old(rows)|,
                                    ProductRefs(old(rows)), ProductRefs(old(rows)), 0,
                                    ScopeViolations(listings, old(rows)))
    {
      if |rows| == 0 { return Raised; }
      var before := rows;
      var ids := Selected(rows.Keys, start, end, limit);
      var tally := Scan(ids, dryRun);
      EnrichAllFrame(listings, before, ids);
      assert |rows.Keys| == |before.Keys|;
      NothingChanged(before, rows);
      return Ok(Report(dryRun, tally, |before|, |rows|, ProductRefs(before), ProductRefs(rows),
                       ChangedRefs(before, rows), ScopeViolations(listings, rows)));
    }
  }

  /** How the loop reads a resolution. */
  function Judged(r: Resolution): Verdict {
    match r
    case Unresolved(conflict, _) => Skips(conflict)
    case Matched(id, _, existing) => if existing then AlreadyLinked else Enriches(id)
  }

  lemma NothingChanged(before: map<nat, Row>, after: map<nat, Row>)
    requires after.Keys == before.Keys && forall id :: id in before ==> after[id].productRef == before[id].productRef
    ensures ChangedRefs(before, after) == 0
  {
    assert (set id | id in before && (id !in after || after[id].productRef != before[id].productRef)) == {};
  }

  ghost function RowsAfter(p: Policy, rows: map<nat, Row>, ids: seq<nat>, n: nat, dryRun: bool): map<nat, Row>
    requires n <= |ids|
  {
    if dryRun then rows else EnrichAll(p, rows, ids[..n])
  }

  ghost function TallyAfter(p: Policy, rows: map<nat, Row>, ids: seq<nat>, n: nat): Tally
    requires n <= |ids| && forall id :: id in ids ==> id in rows
  {
    TallyOf(Entries(p, rows, ids[..n]))
  }

  lemma StoredRowUnchanged(p: Policy, rows: map<nat, Row>, ids: seq<nat>, n: nat, dryRun: bool)
    requires n < |ids| && ids[n] in rows && forall i, j :: 0 <= i < j < |ids| ==> ids[i] < ids[j]
    ensures ids[n] in RowsAfter(p, rows, ids, n, dryRun) && RowsAfter(p, rows, ids, n, dryRun)[ids[n]] == rows[ids[n]]
  {
  }

  lemma NextRow(p: Policy, rows: map<nat, Row>, ids: seq<nat>, n: nat, dryRun: bool)
    requires n < |ids| && forall id :: id in ids ==> id in rows
    requires forall i, j :: 0 <= i < j < |ids| ==> ids[i] < ids[j]
    ensures var row := rows[ids[n]];
      && RowsAfter(p, rows, ids, n + 1, dryRun) ==
         (if dryRun then rows else RowsAfter(p, rows, ids, n, dryRun)[ids[n] := p.link(row)])
      && TallyAfter(p, rows, ids, n + 1) == Add(TallyAfter(p, rows, ids, n), One(Entry(FamilyOf(row), p.verdict(row))))
  {
    assert ids[..n + 1] == ids[..n] + [ids[n]];
    var most, all := Entries(p, rows, ids[..n]), Entries(p, rows, ids[..n + 1]);
    assert all[..n] == most;
  }
}
