/** The canonical metadata a check is matched by: stored rows in database order against a sorted request. */
module OperationMetadata {
  import opened Common
  import opened Dates

  /** One element of a Python tuple. */
  datatype Field = Text(text: string) | Number(number: int)

  type Tuple = seq<Field>

  datatype InputSpec = InputSpec(version: nat, role: string, ordinal: int)

  /** `value` is the compact JSON text of the applied value. */
  datatype ParamSpec = ParamSpec(code: string, value: string, source: string, version: string, effective: Option<Date>)

  /** A parameter in print, with the ISO text of its date, or blank. */
  datatype ParamText = ParamText(code: string, value: string, source: string, version: string, effective: string)

  function EffectiveText(effective: Option<Date>): string {
    if effective.Some? then IsoText(effective.value) else ""
  }

  function Printed(p: ParamSpec): ParamText {
    ParamText(p.code, p.value, p.source, p.version, EffectiveText(p.effective))
  }

  /** The parameter as the database returns it: its date is in UTC. */
  function ReadBack(p: ParamSpec): ParamSpec {
    p.(effective := if p.effective.Some? then Some(InUtc(p.effective.value)) else None)
  }

  function Texts(specs: seq<ParamSpec>): (r: seq<ParamText>)
    ensures |r| == |specs| && forall i :: 0 <= i < |specs| ==> r[i] == Printed(specs[i])
  {
    seq(|specs|, i requires 0 <= i < |specs| => Printed(specs[i]))
  }

  function StoredTexts(rows: seq<ParamSpec>): (r: seq<ParamText>)
    ensures |r| == |rows| && forall i :: 0 <= i < |rows| ==> r[i] == Printed(ReadBack(rows[i]))
  {
    seq(|rows|, i requires 0 <= i < |rows| => Printed(ReadBack(rows[i])))
  }

  function InputTuple(s: InputSpec): Tuple { [Text(s.role), Number(s.ordinal), Number(s.version)] }

  function ParamTuple(p: ParamText): Tuple {
    [Text(p.code), Text(p.value), Text(p.source), Text(p.version), Text(p.effective)]
  }

  predicate FieldLe(a: Field, b: Field) {
    match (a, b)
    case (Text(x), Text(y)) => StringLe(x, y)
    case (Number(x), Number(y)) => x <= y
    case (Text(_), Number(_)) => true
    case (Number(_), Text(_)) => false
  }

  /** Python's order on tuples. */
  predicate TupleLe(a: Tuple, b: Tuple) {
    a == [] || (b != [] && if a[0] == b[0] then TupleLe(a[1..], b[1..]) else FieldLe(a[0], b[0]))
  }

  lemma FieldOrder(a: Field, b: Field, c: Field)
    ensures FieldLe(a, b) || FieldLe(b, a)
    ensures FieldLe(a, b) && FieldLe(b, a) ==> a == b
    ensures FieldLe(a, b) && FieldLe(b, c) ==> FieldLe(a, c)
  {
    if a.Text? && b.Text? {
      StringLeTotal(a.text, b.text);
      if c.Text? && StringLe(a.text, b.text) && StringLe(b.text, c.text) { StringLeTransitive(a.text, b.text, c.text); }
    }
  }

  lemma {:induction false} TupleLeTotal(a: Tuple, b: Tuple)
    ensures TupleLe(a, b) || TupleLe(b, a)
    ensures TupleLe(a, b) && TupleLe(b, a) ==> a == b
  {
    if a != [] && b != [] {
      FieldOrder(a[0], b[0], a[0]);
      if a[0] == b[0] {
        TupleLeTotal(a[1..], b[1..]);
        assert a == [a[0]] + a[1..] && b == [b[0]] + b[1..];
      }
    }
  }

  lemma {:induction false} TupleLeTransitive(a: Tuple, b: Tuple, c: Tuple)
    requires TupleLe(a, b) && TupleLe(b, c)
    ensures TupleLe(a, c)
  {
    if a != [] {
      FieldOrder(a[0], b[0], c[0]);
      FieldOrder(b[0], c[0], a[0]);
      if a[0] == b[0] == c[0] { TupleLeTransitive(a[1..], b[1..], c[1..]); }
    }
  }

  lemma TuplesTotallyOrdered()
    ensures TotalOrder(TupleLe)
  {
    forall a: Tuple, b: Tuple
      ensures TupleLe(a, b) || TupleLe(b, a)
      ensures TupleLe(a, b) && TupleLe(b, a) ==> a == b
    {
      TupleLeTotal(a, b);
    }
    forall a: Tuple, b: Tuple, c: Tuple | TupleLe(a, b) && TupleLe(b, c) ensures TupleLe(a, c) {
      TupleLeTransitive(a, b, c);
    }
  }

  predicate InputOrder(a: InputSpec, b: InputSpec) { TupleLe(InputTuple(a), InputTuple(b)) }

  predicate CodeOrder(a: ParamText, b: ParamText) { StringLe(a.code, b.code) }

  function Tuples<T>(s: seq<T>, f: T -> Tuple): (r: seq<Tuple>)
    ensures |r| == |s| && forall i :: 0 <= i < |s| ==> r[i] == f(s[i])
  {
    seq(|s|, i requires 0 <= i < |s| => f(s[i]))
  }

  ghost predicate Injective<T(!new)>(f: T -> Tuple) { forall x, y :: f(x) == f(y) ==> x == y }

  lemma {:induction false} TuplesCount<T(!new)>(s: seq<T>, f: T -> Tuple, x: T)
    requires Injective(f)
    ensures multiset(Tuples(s, f))[f(x)] == multiset(s)[x]
  {
    if s != [] {
      var most := s[..|s| - 1];
      TuplesCount(most, f, x);
      assert s == most + [s[|s| - 1]];
      assert Tuples(s, f) == Tuples(most, f) + [f(s[|s| - 1])];
    }
  }

  /** Turning rows into tuples keeps and reflects which rows there are, and how often. */
  lemma TuplesSameContents<T(!new)>(a: seq<T>, b: seq<T>, f: T -> Tuple)
    requires Injective(f)
    ensures multiset(Tuples(a, f)) == multiset(Tuples(b, f)) <==> multiset(a) == multiset(b)
  {
    if multiset(Tuples(a, f)) == multiset(Tuples(b, f)) {
      forall x ensures multiset(a)[x] == multiset(b)[x] {
        TuplesCount(a, f, x);
        TuplesCount(b, f, x);
      }
    }
    if multiset(a) == multiset(b) {
      forall y ensures multiset(Tuples(a, f))[y] == multiset(Tuples(b, f))[y] {
        if y in Tuples(a, f) {
          var i :| 0 <= i < |a| && f(a[i]) == y;
          TuplesCount(a, f, a[i]);
          TuplesCount(b, f, a[i]);
        } else if y in Tuples(b, f) {
          var i :| 0 <= i < |b| && f(b[i]) == y;
          TuplesCount(a, f, b[i]);
          TuplesCount(b, f, b[i]);
        }
      }
    }
  }

  // ---------- the two computations ----------

  function SortedTuples(s: seq<Tuple>): seq<Tuple> { SortBy(s, TupleLe) }

  function RequestedInputs(specs: seq<InputSpec>): seq<Tuple> { SortedTuples(Tuples(specs, InputTuple)) }

  function TextsByTuple(texts: seq<ParamText>): seq<Tuple> { SortedTuples(Tuples(texts, ParamTuple)) }

  function RequestedParams(specs: seq<ParamSpec>): seq<Tuple> { TextsByTuple(Texts(specs)) }

  /** `order_by("role_in_operation", "ordinal_no", "file_version_id")` */
  function StoredInputs(rows: seq<InputSpec>): seq<Tuple> {
    Tuples(SortBy(rows, InputOrder), InputTuple)
  }

  /** `order_by("parameter_code", "id")`, the rows being given in id order. */
  function TextsByCode(texts: seq<ParamText>): seq<Tuple> {
    Tuples(SortBy(texts, CodeOrder), ParamTuple)
  }

  function StoredParams(rows: seq<ParamSpec>): seq<Tuple> { TextsByCode(StoredTexts(rows)) }

  predicate DistinctCodes(rows: seq<ParamSpec>) { forall i, j :: 0 <= i < j < |rows| ==> rows[i].code != rows[j].code }

  predicate DistinctTextCodes(rows: seq<ParamText>) {
    forall i, j :: 0 <= i < j < |rows| ==> rows[i].code != rows[j].code
  }

  predicate DistinctPlaces(rows: seq<InputSpec>) {
    forall i, j :: 0 <= i < j < |rows| ==> rows[i].role != rows[j].role || rows[i].ordinal != rows[j].ordinal
  }

  lemma TuplesInjective()
    ensures Injective(InputTuple) && Injective(ParamTuple)
  {
    forall x: InputSpec, y: InputSpec | InputTuple(x) == InputTuple(y) ensures x == y {
      assert InputTuple(x)[0] == InputTuple(y)[0] && InputTuple(x)[1] == InputTuple(y)[1]
             && InputTuple(x)[2] == InputTuple(y)[2];
    }
    forall x: ParamText, y: ParamText | ParamTuple(x) == ParamTuple(y) ensures x == y {
      ParamParts(x, y);
    }
  }

  lemma ParamParts(x: ParamText, y: ParamText)
    requires ParamTuple(x) == ParamTuple(y)
    ensures x == y
  {
    assert forall i :: 0 <= i < 5 ==> ParamTuple(x)[i] == ParamTuple(y)[i];
    assert ParamTuple(x)[0].text == ParamTuple(y)[0].text && ParamTuple(x)[1].text == ParamTuple(y)[1].text;
    assert ParamTuple(x)[2].text == ParamTuple(y)[2].text && ParamTuple(x)[3].text == ParamTuple(y)[3].text;
    assert ParamTuple(x)[4].text == ParamTuple(y)[4].text;
  }

  lemma DistinctTextCodesByMembers(rows: seq<ParamText>)
    ensures DistinctTextCodes(rows) <==>
              Distinct(rows) && forall x, y :: x in multiset(rows) && y in multiset(rows) && x.code == y.code ==> x == y
  {
    if DistinctTextCodes(rows) {
      forall x, y | x in multiset(rows) && y in multiset(rows) && x.code == y.code ensures x == y {
        assert x in rows && y in rows;
      }
    } else {
      var i, j :| 0 <= i < j < |rows| && rows[i].code == rows[j].code;
      assert rows[i] in multiset(rows) && rows[j] in multiset(rows);
    }
  }

  lemma SortingKeepsDistinctCodes(rows: seq<ParamText>, le: (ParamText, ParamText) -> bool)
    requires DistinctTextCodes(rows)
    ensures DistinctTextCodes(SortBy(rows, le))
  {
    DistinctTextCodesByMembers(rows);
    SortByContents(rows, le);
    SortByDistinct(rows, le);
    DistinctTextCodesByMembers(SortBy(rows, le));
  }

  lemma CodeOrderLaws()
    ensures forall a: ParamText, b: ParamText :: StringLe(a.code, b.code) || StringLe(b.code, a.code)
    ensures forall a: ParamText, b: ParamText, c: ParamText :: StringLe(a.code, b.code) && StringLe(b.code, c.code) ==>
              StringLe(a.code, c.code)
  {
    forall a: ParamText, b: ParamText ensures StringLe(a.code, b.code) || StringLe(b.code, a.code) {
      StringLeTotal(a.code, b.code);
    }
    forall a: ParamText, b: ParamText, c: ParamText | StringLe(a.code, b.code) && StringLe(b.code, c.code)
      ensures StringLe(a.code, c.code)
    {
      StringLeTransitive(a.code, b.code, c.code);
    }
  }

  /** With distinct codes, the order by code alone already is the order by the whole tuple. */
  lemma TextsByCodeSorted(rows: seq<ParamText>)
    requires DistinctTextCodes(rows)
    ensures SortedBy(TextsByCode(rows), TupleLe)
    ensures multiset(SortBy(rows, CodeOrder)) == multiset(rows)
  {
    var le := CodeOrder;
    CodeOrderLaws();
    SortBySorted(rows, le);
    SortByContents(rows, le);
    SortingKeepsDistinctCodes(rows, le);
    var sorted, t := SortBy(rows, le), TextsByCode(rows);
    forall i, j | 0 <= i < j < |t| ensures TupleLe(t[i], t[j]) {
      assert le(sorted[i], sorted[j]) && sorted[i].code != sorted[j].code;
    }
  }

  lemma StoredInputsSorted(rows: seq<InputSpec>)
    ensures SortedBy(StoredInputs(rows), TupleLe)
    ensures multiset(SortBy(rows, InputOrder)) == multiset(rows)
  {
    var le := InputOrder;
    InputOrderLaws();
    SortBySorted(rows, le);
    SortByContents(rows, le);
    var sorted, t := SortBy(rows, le), StoredInputs(rows);
    forall i, j | 0 <= i < j < |t| ensures TupleLe(t[i], t[j]) { assert le(sorted[i], sorted[j]); }
  }

  lemma InputOrderLaws()
    ensures forall a: InputSpec, b: InputSpec ::
              TupleLe(InputTuple(a), InputTuple(b)) || TupleLe(InputTuple(b), InputTuple(a))
    ensures forall a: InputSpec, b: InputSpec, c: InputSpec ::
              TupleLe(InputTuple(a), InputTuple(b)) && TupleLe(InputTuple(b), InputTuple(c)) ==>
                TupleLe(InputTuple(a), InputTuple(c))
  {
    forall a: InputSpec, b: InputSpec
      ensures TupleLe(InputTuple(a), InputTuple(b)) || TupleLe(InputTuple(b), InputTuple(a)) {
      TupleLeTotal(InputTuple(a), InputTuple(b));
    }
    forall a: InputSpec, b: InputSpec, c: InputSpec | TupleLe(InputTuple(a), InputTuple(b))
      && TupleLe(InputTuple(b), InputTuple(c))
      ensures TupleLe(InputTuple(a), InputTuple(c))
    {
      TupleLeTransitive(InputTuple(a), InputTuple(b), InputTuple(c));
    }
  }

  lemma SortedTuplesOf(s: seq<Tuple>)
    ensures SortedBy(SortedTuples(s), TupleLe) && multiset(SortedTuples(s)) == multiset(s)
  {
    TuplesTotallyOrdered();
    SortBySorted(s, TupleLe);
    SortByContents(s, TupleLe);
  }

  lemma SortedEqualIff(a: seq<Tuple>, b: seq<Tuple>)
    requires SortedBy(a, TupleLe) && SortedBy(b, TupleLe)
    ensures a == b <==> multiset(a) == multiset(b)
  {
    TuplesTotallyOrdered();
    if multiset(a) == multiset(b) { SortedUnique(a, b, TupleLe); }
  }

  lemma TextsCanonical(rows: seq<ParamText>, specs: seq<ParamText>)
    requires DistinctTextCodes(rows)
    ensures TextsByCode(rows) == TextsByTuple(specs) <==> multiset(rows) == multiset(specs)
  {
    var f := ParamTuple;
    TuplesInjective();
    TextsByCodeSorted(rows);
    SortedTuplesOf(Tuples(specs, f));
    SortedEqualIff(TextsByCode(rows), TextsByTuple(specs));
    TuplesSameContents(SortBy(rows, CodeOrder), specs, f);
  }

  /** Stored parameters equal a request's exactly when they print the same as read back, in whatever order they were
      given, provided no code is stored twice. */
  lemma ParamsCanonical(rows: seq<ParamSpec>, specs: seq<ParamSpec>)
    requires DistinctCodes(rows)
    ensures StoredParams(rows) == RequestedParams(specs) <==> multiset(StoredTexts(rows)) == multiset(Texts(specs))
  {
    TextsCanonical(StoredTexts(rows), Texts(specs));
  }

  /** A parameter is read back as it was printed: it has no date, or one given in UTC. */
  predicate InPrint(p: ParamSpec) { p.effective.Some? ==> p.effective.value.zone == Aware(0) }

  lemma InPrintIff(p: ParamSpec)
    ensures InPrint(p) <==> Printed(ReadBack(p)) == Printed(p)
    ensures InPrint(p) ==> ReadBack(p) == p
  {
    if p.effective.Some? {
      ReadsBackIff(p.effective.value);
      if p.effective.value.zone == Aware(0) { PrintsInUtcIff(p.effective.value, p.effective.value); }
    }
  }

  /** Only a parameter without a date or with one in UTC prints like a stored one. */
  lemma PrintsLikeStored(p: ParamSpec, row: ParamSpec)
    requires Printed(p) == Printed(ReadBack(row))
    ensures InPrint(p)
  {
    if p.effective.Some? {
      IsoEnds(p.effective.value);
      assert row.effective.Some?;
      PrintsInUtcIff(p.effective.value, row.effective.value);
    }
  }

  /** Parameters stored from a request equal that request's exactly when every date in it is given in UTC. */
  lemma StoredAsRequestedIff(specs: seq<ParamSpec>)
    requires DistinctCodes(specs)
    ensures StoredParams(specs) == RequestedParams(specs) <==> forall p :: p in specs ==> InPrint(p)
  {
    ParamsCanonical(specs, specs);
    if StoredParams(specs) == RequestedParams(specs) { MatchedInPrint(specs, specs); }
    if forall p :: p in specs ==> InPrint(p) {
      forall i | 0 <= i < |specs| ensures StoredTexts(specs)[i] == Texts(specs)[i] { InPrintIff(specs[i]); }
      assert StoredTexts(specs) == Texts(specs);
    }
  }

  /** Whatever stored parameters a request's equal, its dates are given in UTC. */
  lemma MatchedInPrint(rows: seq<ParamSpec>, specs: seq<ParamSpec>)
    requires DistinctCodes(rows) && StoredParams(rows) == RequestedParams(specs)
    ensures forall p :: p in specs ==> InPrint(p)
  {
    ParamsCanonical(rows, specs);
    forall p | p in specs ensures InPrint(p) {
      var k :| 0 <= k < |specs| && specs[k] == p;
      assert Texts(specs)[k] in multiset(Texts(specs));
      assert Texts(specs)[k] in multiset(StoredTexts(rows));
      var i :| 0 <= i < |rows| && StoredTexts(rows)[i] == Texts(specs)[k];
      PrintsLikeStored(p, rows[i]);
    }
  }

  lemma InputsCanonical(rows: seq<InputSpec>, specs: seq<InputSpec>)
    ensures StoredInputs(rows) == RequestedInputs(specs) <==> multiset(rows) == multiset(specs)
  {
    var f := InputTuple;
    TuplesInjective();
    StoredInputsSorted(rows);
    SortedTuplesOf(Tuples(specs, f));
    SortedEqualIff(StoredInputs(rows), RequestedInputs(specs));
    TuplesSameContents(SortBy(rows, InputOrder), specs, f);
  }

  /** Two requests have the same metadata exactly when they ask for inputs and print parameters alike, in any order. */
  lemma RequestsAgree(p: seq<ParamSpec>, q: seq<ParamSpec>, i: seq<InputSpec>, j: seq<InputSpec>)
    ensures RequestedParams(p) == RequestedParams(q) <==> multiset(Texts(p)) == multiset(Texts(q))
    ensures RequestedInputs(i) == RequestedInputs(j) <==> multiset(i) == multiset(j)
  {
    TuplesTotallyOrdered();
    TuplesInjective();
    SortCanonical(Tuples(Texts(p), ParamTuple), Tuples(Texts(q), ParamTuple), TupleLe);
    SortCanonical(Tuples(i, InputTuple), Tuples(j, InputTuple), TupleLe);
    TuplesSameContents(Texts(p), Texts(q), ParamTuple);
    TuplesSameContents(i, j, InputTuple);
  }

  /** Two operations' stored parameters agree exactly when they print alike as read back. */
  lemma StoredParamsAgree(a: seq<ParamSpec>, b: seq<ParamSpec>)
    requires DistinctCodes(a) && DistinctCodes(b)
    ensures StoredParams(a) == StoredParams(b) <==> multiset(StoredTexts(a)) == multiset(StoredTexts(b))
  {
    TextsCanonical(StoredTexts(a), StoredTexts(b));
    TextsCanonical(StoredTexts(b), StoredTexts(b));
  }

  lemma StoredInputsAgree(a: seq<InputSpec>, b: seq<InputSpec>)
    ensures StoredInputs(a) == StoredInputs(b) <==> multiset(a) == multiset(b)
  {
    InputsCanonical(a, b);
    InputsCanonical(b, b);
  }

  lemma RepeatedTextsDiffer(p: ParamText, q: ParamText)
    requires p.code == q.code && p != q && TupleLe(ParamTuple(q), ParamTuple(p))
    ensures TextsByCode([p, q]) != TextsByTuple([p, q])
  {
    var le := CodeOrder;
    StringLeTotal(p.code, p.code);
    assert [p, q][1..] == [q] && [q][1..] == [];
    assert SortBy([q], le) == [q];
    assert SortBy([p, q], le) == [p, q];
    SortedTuplesOf(Tuples([p, q], ParamTuple));
    if TextsByCode([p, q]) == TextsByTuple([p, q]) {
      var t := TextsByCode([p, q]);
      assert t[0] == ParamTuple(p) && t[1] == ParamTuple(q);
      TupleLeTotal(ParamTuple(p), ParamTuple(q));
      assert TupleLe(t[0], t[1]);
      ParamParts(p, q);
    }
  }

  /** Without distinct codes the two computations can differ on the very same rows, even without dates. */
  lemma RepeatedCodeDiffers(p: ParamSpec, q: ParamSpec)
    requires p.code == q.code && p != q && p.effective.None? && q.effective.None?
    ensures StoredParams([p, q]) != RequestedParams([p, q]) || StoredParams([q, p]) != RequestedParams([q, p])
  {
    InPrintIff(p);
    InPrintIff(q);
    assert StoredTexts([p, q]) == Texts([p, q]) == [Printed(p), Printed(q)];
    assert StoredTexts([q, p]) == Texts([q, p]) == [Printed(q), Printed(p)];
    TupleLeTotal(ParamTuple(Printed(p)), ParamTuple(Printed(q)));
    if TupleLe(ParamTuple(Printed(q)), ParamTuple(Printed(p))) {
      RepeatedTextsDiffer(Printed(p), Printed(q));
    } else {
      RepeatedTextsDiffer(Printed(q), Printed(p));
    }
  }

  // ---------- the same parameters ----------

  function ReadBacks(rows: seq<ParamSpec>): (r: seq<ParamSpec>)
    ensures |r| == |rows| && forall i :: 0 <= i < |rows| ==> r[i] == ReadBack(rows[i])
  {
    seq(|rows|, i requires 0 <= i < |rows| => ReadBack(rows[i]))
  }

  /** Its date, if any, has a year that dates can have. */
  predicate YearFits(p: ParamSpec) { p.effective.Some? ==> InYears(p.effective.value) }

  /** What is printed of a parameter is all of it, as far as a stored one is concerned. */
  lemma PrintsLikeReadBack(p: ParamSpec, row: ParamSpec)
    requires YearFits(p) && YearFits(ReadBack(row))
    ensures Printed(p) == Printed(ReadBack(row)) <==> p == ReadBack(row)
  {
    if p.effective.Some? && row.effective.Some? { PrintsLikeIff(p.effective.value, row.effective.value); }
    if p.effective.Some? { IsoEnds(p.effective.value); }
    if row.effective.Some? { IsoEnds(InUtc(row.effective.value)); }
  }

  function Without(specs: seq<ParamSpec>, j: nat): seq<ParamSpec>
    requires j < |specs|
  {
    specs[..j] + specs[j + 1..]
  }

  lemma RemoveText(specs: seq<ParamSpec>, j: nat)
    requires j < |specs|
    ensures multiset(specs) == multiset(Without(specs, j)) + multiset{specs[j]}
    ensures multiset(Texts(specs)) == multiset(Texts(Without(specs, j))) + multiset{Printed(specs[j])}
    ensures forall p :: p in Without(specs, j) ==> p in specs
  {
    var texts := Texts(specs);
    assert specs == specs[..j] + [specs[j]] + specs[j + 1..];
    assert texts == texts[..j] + [texts[j]] + texts[j + 1..];
    assert Texts(Without(specs, j)) == texts[..j] + texts[j + 1..];
  }

  lemma CancelOne<T>(a: multiset<T>, b: multiset<T>, x: T)
    ensures a + multiset{x} == b + multiset{x} <==> a == b
  {
    if a + multiset{x} == b + multiset{x} {
      assert a == a + multiset{x} - multiset{x} == b + multiset{x} - multiset{x} == b;
    }
  }

  lemma {:induction false} SameTextsIff(a: seq<ParamSpec>, b: seq<ParamSpec>)
    requires forall x, y :: x in a && y in b ==> (Printed(x) == Printed(y) <==> x == y)
    ensures multiset(Texts(a)) == multiset(Texts(b)) <==> multiset(a) == multiset(b)
    decreases |a|, 1
  {
    if a == [] {
      assert |multiset(Texts(b))| == |b| == |multiset(b)|;
    } else {
      RemoveText(a, 0);
      if multiset(Texts(a)) == multiset(Texts(b)) {
        assert Printed(a[0]) in multiset(Texts(b));
        var j :| 0 <= j < |b| && Texts(b)[j] == Printed(a[0]);
        SameRest(a, b, j);
      } else if multiset(a) == multiset(b) {
        assert a[0] in multiset(b);
        var j :| 0 <= j < |b| && b[j] == a[0];
        SameRest(a, b, j);
      }
    }
  }

  lemma {:induction false} SameRest(a: seq<ParamSpec>, b: seq<ParamSpec>, j: nat)
    requires forall x, y :: x in a && y in b ==> (Printed(x) == Printed(y) <==> x == y)
    requires a != [] && j < |b| && Printed(b[j]) == Printed(a[0])
    ensures multiset(Texts(a)) == multiset(Texts(b)) <==> multiset(a) == multiset(b)
    decreases |a|, 0
  {
    RemoveText(a, 0);
    RemoveText(b, j);
    assert a[0] in a && b[j] in b;
    var c, d := Without(a, 0), Without(b, j);
    SameTextsIff(c, d);
    CancelOne(multiset(c), multiset(d), a[0]);
    CancelOne(multiset(Texts(c)), multiset(Texts(d)), Printed(a[0]));
  }

  /** Stored parameters equal a request's exactly when they are, as read back, the very parameters requested, in any
      order. */
  lemma ParamsMatchIff(rows: seq<ParamSpec>, specs: seq<ParamSpec>)
    requires DistinctCodes(rows)
    requires (forall p :: p in specs ==> YearFits(p)) && forall p :: p in ReadBacks(rows) ==> YearFits(p)
    ensures StoredParams(rows) == RequestedParams(specs) <==> multiset(ReadBacks(rows)) == multiset(specs)
  {
    ParamsCanonical(rows, specs);
    assert StoredTexts(rows) == Texts(ReadBacks(rows));
    forall x, y | x in ReadBacks(rows) && y in specs ensures Printed(x) == Printed(y) <==> x == y {
      var i :| 0 <= i < |rows| && ReadBacks(rows)[i] == x;
      PrintsLikeReadBack(y, rows[i]);
    }
    SameTextsIff(ReadBacks(rows), specs);
  }
}
