/** Ozon Elastic Boosting: the seven-rule price decision, the planned action per row and the calculation result. */
module OzonElastic {
  import opened Common
  import opened Decimals

  datatype Reason =
    | MissingMinPrice | NoStock | NoBoostPrices | UseMaxBoostPrice | UseMinPrice
    | BelowMinPriceThreshold | InsufficientInput

  /** `finalPrice` is present exactly when the row participates. */
  datatype Decision = Decision(reason: Reason, finalPrice: Option<Decimal>)

  predicate Less(a: Decimal, b: Decimal) { ValueOf(a) < ValueOf(b) }

  const ZERO := Decimal(false, 0, 0)

  function Decide(minPrice: Option<Decimal>, minBoost: Option<Decimal>, maxBoost: Option<Decimal>,
                  stock: Option<Decimal>): Decision {
    if minPrice.None? then Decision(MissingMinPrice, None)
    else if stock.None? || !Less(ZERO, stock.value) then Decision(NoStock, None)
    else if minBoost.None? && maxBoost.None? then Decision(NoBoostPrices, None)
    else if maxBoost.Some? && !Less(maxBoost.value, minPrice.value) then Decision(UseMaxBoostPrice, maxBoost)
    else if maxBoost.Some? && minBoost.Some? && !Less(minBoost.value, minPrice.value) then
      Decision(UseMinPrice, minPrice)
    else if minBoost.Some? && Less(minBoost.value, minPrice.value) then Decision(BelowMinPriceThreshold, None)
    else Decision(InsufficientInput, None)
  }

  /** The source column a rejected row is reported against. */
  datatype Field = J | O | OAndP | R | SourceGroupColumn | NoField

  function ProblemField(reason: Reason): Field {
    match reason
    case MissingMinPrice => J
    case NoStock => R
    case NoBoostPrices => OAndP
    case BelowMinPriceThreshold => O
    case InsufficientInput => OAndP
    case UseMaxBoostPrice => NoField
    case UseMinPrice => NoField
  }

  function Max(a: real, b: real): real { if a < b then b else a }

  /** When a row with a minimum price J takes part, and at what price, said without the order of the rules. */
  lemma DecisionMeaning(j: Decimal, o: Option<Decimal>, p: Option<Decimal>, stock: Decimal)
    requires ValueOf(stock) > 0.0
    ensures var d := Decide(Some(j), o, p, Some(stock));
      && (o.Some? && p.Some? ==>
            && (d.finalPrice.Some? <==> ValueOf(j) <= Max(ValueOf(o.value), ValueOf(p.value)))
            && (d.finalPrice.Some? ==> ValueOf(d.finalPrice.value) == Max(ValueOf(j), ValueOf(p.value))))
      && (o.None? && p.Some? ==>
            && (d.finalPrice.Some? <==> ValueOf(j) <= ValueOf(p.value))
            && (d.finalPrice.Some? ==> d.finalPrice == p))
      && (p.None? ==> d.finalPrice.None?)
  {
    assert ValueOf(ZERO) == 0.0;
  }

  /** Without a minimum price or a positive stock nothing participates. */
  lemma DecisionNeedsPriceAndStock(j: Option<Decimal>, o: Option<Decimal>, p: Option<Decimal>, stock: Option<Decimal>)
    ensures Decide(j, o, p, stock).finalPrice.Some? ==>
              && j.Some? && stock.Some? && ValueOf(stock.value) > 0.0
              && ValueOf(j.value) <= ValueOf(Decide(j, o, p, stock).finalPrice.value)
  {
    assert ValueOf(ZERO) == 0.0;
  }

  // ---------- each reason by the values alone ----------

  ghost predicate InStock(stock: Option<Decimal>) { stock.Some? && ValueOf(stock.value) > 0.0 }

  /** A boost price is given and reaches the minimum price. */
  ghost predicate Reaches(boost: Option<Decimal>, j: Decimal) { boost.Some? && ValueOf(boost.value) >= ValueOf(j) }

  ghost predicate Misses(boost: Option<Decimal>, j: Decimal) { boost.Some? && ValueOf(boost.value) < ValueOf(j) }

  /** The condition of each reason, in terms of the minimum price J, the boost prices O and P and the stock; no two of
      them hold together. */
  ghost predicate Applies(reason: Reason, j: Option<Decimal>, o: Option<Decimal>, p: Option<Decimal>,
                          stock: Option<Decimal>)
  {
    match reason
    case MissingMinPrice => j.None?
    case NoStock => j.Some? && !InStock(stock)
    case NoBoostPrices => j.Some? && InStock(stock) && o.None? && p.None?
    case UseMaxBoostPrice => j.Some? && InStock(stock) && Reaches(p, j.value)
    case UseMinPrice => j.Some? && InStock(stock) && Misses(p, j.value) && Reaches(o, j.value)
    case BelowMinPriceThreshold => j.Some? && InStock(stock) && Misses(o, j.value) && !Reaches(p, j.value)
    case InsufficientInput =>
      j.Some? && InStock(stock) && ((o.None? && Misses(p, j.value)) || (p.None? && Reaches(o, j.value)))
  }

  lemma ReasonIff(reason: Reason, j: Option<Decimal>, o: Option<Decimal>, p: Option<Decimal>, stock: Option<Decimal>)
    ensures Decide(j, o, p, stock).reason == reason <==> Applies(reason, j, o, p, stock)
  {
    assert ValueOf(ZERO) == 0.0;
  }

  /** The price is P, J or none, and the problem is reported against J, the stock, both boost prices, O or nothing, by
      the same conditions. */
  lemma DecisionByValues(j: Option<Decimal>, o: Option<Decimal>, p: Option<Decimal>, stock: Option<Decimal>)
    ensures var d := Decide(j, o, p, stock);
      && d.finalPrice == (if Applies(UseMaxBoostPrice, j, o, p, stock) then p
                          else if Applies(UseMinPrice, j, o, p, stock) then j else None)
      && (ProblemField(d.reason) == J <==> j.None?)
      && (ProblemField(d.reason) == R <==> j.Some? && !InStock(stock))
      && (ProblemField(d.reason) == O <==> Applies(BelowMinPriceThreshold, j, o, p, stock))
      && (ProblemField(d.reason) == OAndP <==>
            Applies(NoBoostPrices, j, o, p, stock) || Applies(InsufficientInput, j, o, p, stock))
      && (ProblemField(d.reason) == NoField <==> d.finalPrice.Some?)
  {
    assert ValueOf(ZERO) == 0.0;
  }

  // ---------- recomputation from printed fields ----------

  predicate SameNumber(a: Option<Decimal>, b: Option<Decimal>) {
    a.Some? == b.Some? && (a.Some? ==> ValueOf(a.value) == ValueOf(b.value))
  }

  lemma DecideRespectsValue(j: Option<Decimal>, o: Option<Decimal>, p: Option<Decimal>, r: Option<Decimal>,
                            j': Option<Decimal>, o': Option<Decimal>, p': Option<Decimal>, r': Option<Decimal>)
    requires SameNumber(j, j') && SameNumber(o, o') && SameNumber(p, p') && SameNumber(r, r')
    ensures Decide(j, o, p, r).reason == Decide(j', o', p', r').reason
    ensures SameNumber(Decide(j, o, p, r).finalPrice, Decide(j', o', p', r').finalPrice)
  {
  }

  lemma ReparseSameNumber(d: Option<Decimal>)
    ensures SameNumber(d, Reparse(ToJson(d)))
  {
    if d.Some? { RoundTripValue(d.value); }
  }

  /** The decision recomputed from a row's printed fields is the decision that was printed. */
  lemma RecomputedDecisionAgrees(j: Option<Decimal>, o: Option<Decimal>, p: Option<Decimal>, r: Option<Decimal>)
    ensures var again := Decide(Reparse(ToJson(j)), Reparse(ToJson(o)), Reparse(ToJson(p)), Reparse(ToJson(r)));
      && again.reason == Decide(j, o, p, r).reason
      && ProblemField(again.reason) == ProblemField(Decide(j, o, p, r).reason)
      && SameNumber(Decide(j, o, p, r).finalPrice, again.finalPrice)
  {
    ReparseSameNumber(j);
    ReparseSameNumber(o);
    ReparseSameNumber(p);
    ReparseSameNumber(r);
    DecideRespectsValue(j, o, p, r,
                        Reparse(ToJson(j)), Reparse(ToJson(o)), Reparse(ToJson(p)), Reparse(ToJson(r)));
  }

  // ---------- rows ----------

  datatype SourceGroup = Active | Candidate | CandidateAndActive | Other(text: string)

  /** A canonical source row: the fields the calculation reads. */
  datatype SourceRow = SourceRow(productId: string, sourceGroup: SourceGroup,
                                 minPrice: Cell, minBoost: Cell, maxBoost: Cell, stock: Cell)

  datatype Plan = AddToAction | UpdateActionPrice | DeactivateFromAction | SkipCandidate | Blocked

  datatype Row = Row(productId: string, sourceGroup: SourceGroup,
                     minPrice: Option<string>, minBoost: Option<string>, maxBoost: Option<string>,
                     stock: Option<string>, reason: Reason, plan: Plan, price: Option<string>, uploadReady: bool,
                     deactivateReason: Option<Reason>)

  predicate KnownGroup(group: SourceGroup) { !group.Other? }

  predicate DeactivateReason(reason: Reason) {
    match reason
    case MissingMinPrice | NoStock | NoBoostPrices | BelowMinPriceThreshold | InsufficientInput => true
    case UseMaxBoostPrice | UseMinPrice => false
  }

  function PlannedAction(group: SourceGroup, ready: bool, reason: Reason): (Plan, Option<Reason>) {
    match group
    case Candidate => (if ready then AddToAction else SkipCandidate, None)
    case Active | CandidateAndActive =>
      if ready then (UpdateActionPrice, None)
      else if DeactivateReason(reason) then (DeactivateFromAction, Some(reason))
      else (Blocked, None)
    case Other(_) => (Blocked, None)
  }

  function DecisionFor(row: SourceRow): Decision {
    Decide(ParseDecimal(row.minPrice), ParseDecimal(row.minBoost), ParseDecimal(row.maxBoost), ParseDecimal(row.stock))
  }

  function CalculationRow(row: SourceRow): Row {
    var decision := DecisionFor(row);
    var (plan, deactivateReason) := PlannedAction(row.sourceGroup, decision.finalPrice.Some?, decision.reason);
    var blocked := plan == Blocked;
    Row(row.productId, row.sourceGroup,
        ToJson(ParseDecimal(row.minPrice)), ToJson(ParseDecimal(row.minBoost)),
        ToJson(ParseDecimal(row.maxBoost)), ToJson(ParseDecimal(row.stock)),
        decision.reason, plan,
        if blocked then None else ToJson(decision.finalPrice),
        !blocked && decision.finalPrice.Some?,
        deactivateReason)
  }

  /** What a planned action means for a row, in terms of its group and of the numbers printed in it. */
  lemma PlanMeaning(src: SourceRow)
    ensures var row := CalculationRow(src);
      && (row.plan == AddToAction || row.plan == UpdateActionPrice <==> row.uploadReady)
      && (row.uploadReady <==>
            && KnownGroup(row.sourceGroup) && row.price.Some?
            && Reparse(row.minPrice).Some? && Reparse(row.price).Some?
            && ValueOf(Reparse(row.minPrice).value) <= ValueOf(Reparse(row.price).value))
      && (row.plan == Blocked <==> !KnownGroup(row.sourceGroup))
      && (row.plan == DeactivateFromAction <==>
            (row.sourceGroup.Active? || row.sourceGroup.CandidateAndActive?) && DecisionFor(src).finalPrice.None?)
      && (row.plan == DeactivateFromAction <==> row.deactivateReason.Some?)
      && (row.plan == SkipCandidate <==> row.sourceGroup.Candidate? && DecisionFor(src).finalPrice.None?)
  {
    var d := DecisionFor(src);
    DecisionNeedsPriceAndStock(ParseDecimal(src.minPrice), ParseDecimal(src.minBoost),
                               ParseDecimal(src.maxBoost), ParseDecimal(src.stock));
    ReparseSameNumber(ParseDecimal(src.minPrice));
    ReparseSameNumber(d.finalPrice);
  }

  /** A calculated row carries the source's own numbers, each in its field, the reason that applies to them and its
      price; a row is deactivated for that reason and no other. */
  lemma RowMeaning(src: SourceRow)
    ensures var row := CalculationRow(src);
      var j, o, p, r := ParseDecimal(src.minPrice), ParseDecimal(src.minBoost), ParseDecimal(src.maxBoost),
                        ParseDecimal(src.stock);
      && row.productId == src.productId && row.sourceGroup == src.sourceGroup
      && SameNumber(j, Reparse(row.minPrice)) && SameNumber(o, Reparse(row.minBoost))
      && SameNumber(p, Reparse(row.maxBoost)) && SameNumber(r, Reparse(row.stock))
      && Applies(row.reason, j, o, p, r)
      && SameNumber(Reparse(row.price), if src.sourceGroup.Other? then None
                                        else if row.reason == UseMaxBoostPrice then p
                                        else if row.reason == UseMinPrice then j else None)
      && row.deactivateReason == if row.plan == DeactivateFromAction then Some(row.reason) else None
  {
    var j, o, p, r := ParseDecimal(src.minPrice), ParseDecimal(src.minBoost), ParseDecimal(src.maxBoost),
                      ParseDecimal(src.stock);
    ReparseSameNumber(j);
    ReparseSameNumber(o);
    ReparseSameNumber(p);
    ReparseSameNumber(r);
    ReasonIff(DecisionFor(src).reason, j, o, p, r);
    DecisionByValues(j, o, p, r);
    PlanByReason(src);
  }

  /** Which plan a row gets, by its source group and the reason that applies. */
  lemma PlanByReason(src: SourceRow)
    ensures var row, priced := CalculationRow(src), DecisionFor(src).reason in {UseMaxBoostPrice, UseMinPrice};
      && (row.plan == AddToAction <==> src.sourceGroup == Candidate && priced)
      && (row.plan == SkipCandidate <==> src.sourceGroup == Candidate && !priced)
      && (row.plan == UpdateActionPrice <==> src.sourceGroup in {Active, CandidateAndActive} && priced)
      && (row.plan == DeactivateFromAction <==> src.sourceGroup in {Active, CandidateAndActive} && !priced)
      && (row.plan == Blocked <==> src.sourceGroup.Other?)
      && (row.uploadReady <==> priced && !src.sourceGroup.Other?)
  {
  }

  function RowsOf(canonical: seq<SourceRow>): seq<Row> {
    seq(|canonical|, i requires 0 <= i < |canonical| => CalculationRow(canonical[i]))
  }

  lemma NextRow(canonical: seq<SourceRow>, n: nat)
    requires n < |canonical|
    ensures RowsOf(canonical[..n + 1]) == RowsOf(canonical[..n]) + [CalculationRow(canonical[n])]
  {
    var all, most := canonical[..n + 1], canonical[..n];
    forall i | 0 <= i <= n ensures RowsOf(all)[i] == (RowsOf(most) + [CalculationRow(canonical[n])])[i] {
      assert i < n ==> all[i] == most[i];
    }
  }

  method CalculateRows(canonical: seq<SourceRow>) returns (rows: seq<Row>)
    ensures rows == RowsOf(canonical)
  {
    rows := [];
    for n := 0 to |canonical|
      invariant rows == RowsOf(canonical[..n])
    {
      NextRow(canonical, n);
      rows := rows + [CalculationRow(canonical[n])];
    }
    assert canonical[..|canonical|] == canonical;
  }

  // ---------- groups ----------

  function Group(rows: seq<Row>, plan: Plan): seq<Row> {
    if rows == [] then [] else (if rows[0].plan == plan then [rows[0]] else []) + Group(rows[1..], plan)
  }

  lemma {:induction false} GroupSnoc(rows: seq<Row>, row: Row, plan: Plan)
    ensures Group(rows + [row], plan) == Group(rows, plan) + (if row.plan == plan then [row] else [])
  {
    if rows != [] {
      assert (rows + [row])[1..] == rows[1..] + [row];
      GroupSnoc(rows[1..], row, plan);
    }
  }

  method SummaryGroups(rows: seq<Row>) returns (groups: map<Plan, seq<Row>>)
    ensures forall p: Plan :: p in groups && groups[p] == Group(rows, p)
  {
    groups := map[AddToAction := [], UpdateActionPrice := [], DeactivateFromAction := [], SkipCandidate := [],
                  Blocked := []];
    forall p: Plan ensures p in groups && groups[p] == [] {
      match p case AddToAction => case UpdateActionPrice => case DeactivateFromAction =>
              case SkipCandidate => case Blocked =>
    }
    for n := 0 to |rows|
      invariant forall p: Plan :: p in groups && groups[p] == Group(rows[..n], p)
    {
      var row := rows[n];
      assert rows[..n + 1] == rows[..n] + [row];
      forall p: Plan { GroupSnoc(rows[..n], row, p); }
      groups := groups[row.plan := groups[row.plan] + [row]];
    }
    assert rows[..|rows|] == rows;
  }

  lemma {:induction false} GroupCount(rows: seq<Row>, plan: Plan, row: Row)
    ensures multiset(Group(rows, plan))[row] == if row.plan == plan then multiset(rows)[row] else 0
  {
    if rows != [] {
      GroupCount(rows[1..], plan, row);
      assert rows == [rows[0]] + rows[1..];
    }
  }

  lemma GroupMembers(rows: seq<Row>, plan: Plan, row: Row)
    ensures row in Group(rows, plan) <==> row in rows && row.plan == plan
  {
    GroupCount(rows, plan, row);
    assert row in Group(rows, plan) <==> row in multiset(Group(rows, plan));
    assert row in rows <==> row in multiset(rows);
  }

  function GroupUnion(rows: seq<Row>): multiset<Row> {
    multiset(Group(rows, AddToAction)) + multiset(Group(rows, UpdateActionPrice))
    + multiset(Group(rows, DeactivateFromAction)) + multiset(Group(rows, SkipCandidate))
      + multiset(Group(rows, Blocked))
  }

  /** The groups share the rows out: each row is in the group of its plan, and none is lost or doubled. */
  lemma GroupsPartition(rows: seq<Row>)
    ensures GroupUnion(rows) == multiset(rows)
  {
    forall row: Row ensures GroupUnion(rows)[row] == multiset(rows)[row] {
      GroupCount(rows, AddToAction, row);
      GroupCount(rows, UpdateActionPrice, row);
      GroupCount(rows, DeactivateFromAction, row);
      GroupCount(rows, SkipCandidate, row);
      GroupCount(rows, Blocked, row);
    }
  }

  // ---------- persisted details ----------

  datatype Detail = Detail(rowNo: nat, productRef: string, reason: Reason, isError: bool, problemField: Field)

  /** The detail of a source row, by the decision first taken for it. */
  ghost function DetailFor(rowNo: nat, src: SourceRow): Detail {
    var known := KnownGroup(src.sourceGroup);
    var reason := DecisionFor(src).reason;
    Detail(rowNo, src.productId, reason, !known, if known then ProblemField(reason) else SourceGroupColumn)
  }

  ghost function DetailsFor(canonical: seq<SourceRow>): seq<Detail> {
    seq(|canonical|, i requires 0 <= i < |canonical| => DetailFor(i + 1, canonical[i]))
  }

  /** One detail row: its decision is recomputed from the printed fields. */
  function DetailRow(rowNo: nat, row: Row): Detail {
    var blocked := row.plan == Blocked;
    var again := Decide(Reparse(row.minPrice), Reparse(row.minBoost), Reparse(row.maxBoost), Reparse(row.stock));
    Detail(rowNo, row.productId, row.reason, blocked, if blocked then SourceGroupColumn else ProblemField(again.reason))
  }

  /** What a detail says, by the values of its source row: an unknown group is an error of the group's column, and else
      the problem is J's, the stock's, O's, both boost prices' or nobody's. */
  lemma DetailMeaning(rowNo: nat, src: SourceRow)
    ensures var d := DetailFor(rowNo, src);
      var j, o, p, r := ParseDecimal(src.minPrice), ParseDecimal(src.minBoost), ParseDecimal(src.maxBoost),
                        ParseDecimal(src.stock);
      && d.rowNo == rowNo && d.productRef == src.productId && Applies(d.reason, j, o, p, r)
      && (d.isError <==> src.sourceGroup.Other?) && (d.problemField == SourceGroupColumn <==> src.sourceGroup.Other?)
      && (!src.sourceGroup.Other? ==>
            && (d.problemField == J <==> j.None?) && (d.problemField == R <==> j.Some? && !InStock(r))
            && (d.problemField == O <==> Applies(BelowMinPriceThreshold, j, o, p, r))
            && (d.problemField == OAndP <==>
                  Applies(NoBoostPrices, j, o, p, r) || Applies(InsufficientInput, j, o, p, r)))
  {
    var j, o, p, r := ParseDecimal(src.minPrice), ParseDecimal(src.minBoost), ParseDecimal(src.maxBoost),
                      ParseDecimal(src.stock);
    ReasonIff(DecisionFor(src).reason, j, o, p, r);
    DecisionByValues(j, o, p, r);
  }

  lemma DetailRowFaithful(rowNo: nat, src: SourceRow)
    ensures DetailRow(rowNo, CalculationRow(src)) == DetailFor(rowNo, src)
  {
    PlanMeaning(src);
    RecomputedDecisionAgrees(ParseDecimal(src.minPrice), ParseDecimal(src.minBoost),
                             ParseDecimal(src.maxBoost), ParseDecimal(src.stock));
  }

  function FirstDetails(rows: seq<Row>, n: nat): seq<Detail>
    requires n <= |rows|
  {
    if n == 0 then [] else FirstDetails(rows, n - 1) + [DetailRow(n, rows[n - 1])]
  }

  lemma TakeOneMore<T>(s: seq<T>, n: nat)
    requires 0 < n <= |s|
    ensures s[..n] == s[..n - 1] + [s[n - 1]]
  {
  }

  /** The persisted details recompute every decision from printed numbers and still report the original ones. */
  lemma {:induction false} DetailsFaithful(canonical: seq<SourceRow>, n: nat)
    requires n <= |canonical|
    ensures FirstDetails(RowsOf(canonical), n) == DetailsFor(canonical)[..n]
  {
    if n > 0 {
      DetailsFaithful(canonical, n - 1);
      DetailRowFaithful(n, canonical[n - 1]);
      TakeOneMore(DetailsFor(canonical), n);
    }
  }

  method PersistDetails(rows: seq<Row>, ghost canonical: seq<SourceRow>) returns (details: seq<Detail>)
    requires rows == RowsOf(canonical)
    ensures details == DetailsFor(canonical)
  {
    details := [];
    for n := 0 to |rows|
      invariant details == FirstDetails(rows, n)
    {
      details := details + [DetailRow(n + 1, rows[n])];
    }
    DetailsFaithful(canonical, |canonical|);
  }

  // ---------- the calculation result ----------

  datatype CalculationStatus = CompletedSuccess | CompletedWithError

  datatype Calculation = Calculation(rows: seq<Row>, status: CalculationStatus, deactivationPending: bool)

  lemma GroupEmpty(rows: seq<Row>, plan: Plan)
    ensures Group(rows, plan) == [] <==> forall row :: row in rows ==> row.plan != plan
  {
    forall row { GroupMembers(rows, plan, row); }
    assert Group(rows, plan) != [] ==> Group(rows, plan)[0] in Group(rows, plan);
  }

  predicate AllGroupsKnown(canonical: seq<SourceRow>) {
    forall i :: 0 <= i < |canonical| ==> KnownGroup(canonical[i].sourceGroup)
  }

  lemma BlockedIffUnknownGroup(canonical: seq<SourceRow>)
    ensures (forall row :: row in RowsOf(canonical) ==> row.plan != Blocked) <==> AllGroupsKnown(canonical)
    ensures forall row :: row in RowsOf(canonical) && row.plan == DeactivateFromAction ==> row.deactivateReason.Some?
  {
    forall i | 0 <= i < |canonical|
      ensures RowsOf(canonical)[i].plan == Blocked <==> !KnownGroup(canonical[i].sourceGroup)
      ensures RowsOf(canonical)[i].plan == DeactivateFromAction ==> RowsOf(canonical)[i].deactivateReason.Some?
    {
      PlanMeaning(canonical[i]);
    }
    assert forall i :: 0 <= i < |canonical| ==> RowsOf(canonical)[i] in RowsOf(canonical);
  }

  /** Only a successful calculation can be reviewed, and it has no blocked row: every source group was known. */
  method Calculate(canonical: seq<SourceRow>) returns (c: Calculation, details: seq<Detail>)
    ensures c.rows == RowsOf(canonical)
    ensures details == DetailsFor(canonical)
    ensures c.status == CompletedSuccess <==> AllGroupsKnown(canonical)
    ensures c.status == CompletedSuccess <==> forall row :: row in c.rows ==> row.plan != Blocked
    ensures c.deactivationPending <==> exists row :: row in c.rows && row.plan == DeactivateFromAction
  {
    var rows := CalculateRows(canonical);
    var groups := SummaryGroups(rows);
    details := PersistDetails(rows, canonical);
    var errorCount := |groups[Blocked]|;
    c := Calculation(rows, if errorCount > 0 then CompletedWithError else CompletedSuccess,
                     |groups[DeactivateFromAction]| > 0);
    GroupEmpty(rows, Blocked);
    GroupEmpty(rows, DeactivateFromAction);
    BlockedIffUnknownGroup(canonical);
  }
}
