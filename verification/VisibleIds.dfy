/** Visible ids such as `OP-2025-000042`: the next number is read back from the string maximum of the year's ids. */
module VisibleIds {
  import opened Common
  import opened Decimals

  /** How many creations of one year succeed. */
  const LIMIT := 1_000_000

  function Prefix(tag: string, year: nat): string { tag + Digits(year) + "-" }

  /** `f"{n:06d}"` */
  function Pad6(n: nat): (s: string)
    ensures AllDigits(s) && |s| >= 6
  {
    var d := Digits(n);
    if |d| >= 6 then d else Zeros(6 - |d|) + d
  }

  function Id(tag: string, year: nat, n: nat): string { Prefix(tag, year) + Pad6(n) }

  /** The number after the greatest visible id of the year; anything but six digits starts again at 1. */
  function NextNo(greatest: Option<string>, prefix: string): nat
    requires greatest.Some? ==> prefix <= greatest.value
  {
    if greatest.None? then 1
    else
      var suffix := greatest.value[|prefix|..];
      if |suffix| == 6 && AllDigits(suffix) then DigitsValue(suffix) + 1 else 1
  }

  /** After an id that does not end in six digits the numbers start again. */
  lemma ForeignRestarts(prefix: string, suffix: string)
    requires |suffix| != 6 || !AllDigits(suffix)
    ensures NextNo(Some(prefix + suffix), prefix) == 1
  {
    assert (prefix + suffix)[|prefix|..] == suffix;
  }

  ghost predicate IsGreatest(ids: set<string>, prefix: string, greatest: Option<string>) {
    match greatest
    case None => forall s :: s in ids ==> !(prefix <= s)
    case Some(m) => m in ids && prefix <= m && forall s :: s in ids && prefix <= s ==> StringLe(s, m)
  }

  method MaxVisibleId(ids: set<string>, prefix: string) returns (greatest: Option<string>)
    ensures IsGreatest(ids, prefix, greatest)
  {
    greatest := None;
    var done: set<string> := {};
    while ids - done != {}
      invariant done <= ids && IsGreatest(done, prefix, greatest)
      decreases ids - done
    {
      var s :| s in ids - done;
      if prefix <= s {
        if greatest.None? {
          StringLeTotal(s, s);
          greatest := Some(s);
        } else {
          StringLeTotal(s, greatest.value);
          if StringLe(greatest.value, s) {
            forall t | t in done && prefix <= t ensures StringLe(t, s) {
              StringLeTransitive(t, greatest.value, s);
            }
            StringLeTotal(s, s);
            greatest := Some(s);
          }
        }
      }
      done := done + {s};
    }
    AllDone(ids, done);
  }

  // ---------- numbers and their padded strings ----------

  lemma {:induction false} DigitsValueBound(s: string)
    requires AllDigits(s)
    ensures DigitsValue(s) < Pow10(|s|)
  {
    if s != [] {
      LastDigit(s);
      DigitsValueBound(s[..|s| - 1]);
    }
  }

  lemma {:induction false} DigitsValueFirst(s: string)
    requires AllDigits(s) && s != []
    ensures DigitsValue(s) == DigitValue(s[0]) * Pow10(|s| - 1) + DigitsValue(s[1..])
  {
    if |s| == 1 {
      OneDigit(s);
      assert DigitsValue(s[1..]) == 0 && Pow10(0) == 1;
    } else {
      var most := s[..|s| - 1];
      var tail := s[1..];
      LastDigit(s);
      LastDigit(tail);
      DigitsValueFirst(most);
      assert tail[..|tail| - 1] == most[1..] && tail[|tail| - 1] == s[|s| - 1] && most[0] == s[0];
      TimesTen(DigitValue(s[0]), Pow10(|s| - 2));
    }
  }

  lemma TimesTen(d: nat, p: nat)
    ensures d * (10 * p) == 10 * (d * p)
  {
  }

  /** Among digit strings of one length, string order is numeric order. */
  lemma {:induction false} SameLengthOrder(a: string, b: string)
    requires AllDigits(a) && AllDigits(b) && |a| == |b|
    ensures StringLe(a, b) <==> DigitsValue(a) <= DigitsValue(b)
  {
    if a != [] {
      DigitsValueFirst(a);
      DigitsValueFirst(b);
      SameLengthOrder(a[1..], b[1..]);
      DigitsValueBound(a[1..]);
      DigitsValueBound(b[1..]);
      HigherDigit(DigitValue(a[0]), DigitValue(b[0]), Pow10(|a| - 1), DigitsValue(a[1..]), DigitsValue(b[1..]));
      HigherDigit(DigitValue(b[0]), DigitValue(a[0]), Pow10(|a| - 1), DigitsValue(b[1..]), DigitsValue(a[1..]));
    }
  }

  lemma HigherDigit(x: nat, y: nat, p: nat, u: nat, v: nat)
    requires u < p && v < p
    ensures x < y ==> x * p + u < y * p + v
  {
    if x < y {
      assert (x + 1) * p <= y * p;
    }
  }

  lemma {:induction false} DigitsLength(n: nat, k: nat)
    requires k > 0
    ensures n < Pow10(k) <==> |Digits(n)| <= k
  {
    if n >= 10 {
      if k == 1 {
        assert Pow10(1) == 10;
      } else {
        DigitsLength(n / 10, k - 1);
        assert Pow10(k) == 10 * Pow10(k - 1);
      }
    } else {
      Pow10Positive(k - 1);
    }
  }

  lemma Pow10Of6()
    ensures Pow10(6) == LIMIT
  {
    assert Pow10(2) == 100;
    assert Pow10(4) == 100 * Pow10(2);
  }

  lemma Pad6Value(n: nat)
    ensures DigitsValue(Pad6(n)) == n
    ensures n < LIMIT <==> |Pad6(n)| == 6
  {
    DigitsRoundTrip(n);
    Pow10Of6();
    DigitsLength(n, 6);
    if |Digits(n)| < 6 { LeadingZeros(6 - |Digits(n)|, Digits(n)); }
  }

  lemma Pad6Order(m: nat, n: nat)
    requires m < LIMIT && n < LIMIT
    ensures StringLe(Pad6(m), Pad6(n)) <==> m <= n
  {
    Pad6Value(m);
    Pad6Value(n);
    SameLengthOrder(Pad6(m), Pad6(n));
  }

  lemma {:induction false} PowersLeadWithOne(k: nat)
    ensures Digits(Pow10(k))[0] == '1'
  {
    if k > 0 {
      PowersLeadWithOne(k - 1);
      Pow10Positive(k - 1);
      assert Digits(10 * Pow10(k - 1)) == Digits(Pow10(k - 1)) + ['0'];
    }
  }

  lemma NinesLeadWithNine()
    ensures Digits(LIMIT - 1)[0] == '9'
  {
    assert Digits(99)[0] == '9';
    assert Digits(9999)[0] == Digits(999)[0] == '9';
    assert Digits(999999)[0] == Digits(99999)[0] == '9';
  }

  /** The seven-digit millionth number sorts below 999999. */
  lemma MillionSortsLow()
    ensures StringLe(Pad6(LIMIT), Pad6(LIMIT - 1)) && !StringLe(Pad6(LIMIT - 1), Pad6(LIMIT))
  {
    Pow10Of6();
    PowersLeadWithOne(6);
    NinesLeadWithNine();
    DigitsLength(LIMIT, 6);
    DigitsLength(LIMIT - 1, 6);
    DigitsLength(LIMIT - 1, 5);
    assert Pow10(6) == 10 * Pow10(5);
    assert Pad6(LIMIT)[0] == '1' && Pad6(LIMIT - 1)[0] == '9';
  }

  /** A digit string followed by a dash starts another such string only if it is the same one. */
  lemma DashEndsDigits(a: string, b: string, rest: string)
    requires AllDigits(a) && AllDigits(b) && a + "-" <= b + "-" + rest
    ensures a == b
  {
    var whole := b + "-" + rest;
    assert forall i :: 0 <= i < |a| ==> whole[i] == (a + "-")[i] == a[i];
    assert whole[|a|] == (a + "-")[|a|] == '-' && whole[|b|] == '-';
    assert forall i :: 0 <= i < |b| ==> whole[i] == b[i];
    assert |a| == |b|;
  }

  lemma DropTag(tag: string, a: string, b: string)
    ensures tag + a <= tag + b <==> a <= b
  {
    if tag + a <= tag + b {
      assert forall i :: 0 <= i < |a| ==> (tag + a)[|tag| + i] == a[i] && (tag + b)[|tag| + i] == b[i];
    }
  }

  lemma SameDigits(m: nat, n: nat)
    requires Digits(m) == Digits(n)
    ensures m == n
  {
    DigitsRoundTrip(m);
    DigitsRoundTrip(n);
  }

  lemma DigitsOfPrefix(tag: string, a: string, b: string, pad: string)
    requires AllDigits(a) && AllDigits(b) && tag + a + "-" <= tag + b + "-" + pad
    ensures a == b
  {
    assert tag + a + "-" == tag + (a + "-") && tag + b + "-" + pad == tag + (b + "-" + pad);
    DropTag(tag, a + "-", b + "-" + pad);
    DashEndsDigits(a, b, pad);
  }

  /** An id carries the prefix of its own year only. */
  lemma PrefixOfId(tag: string, year: nat, other: nat, n: nat)
    ensures Prefix(tag, year) <= Id(tag, other, n) <==> year == other
  {
    if Prefix(tag, year) <= Id(tag, other, n) {
      DigitsOfPrefix(tag, Digits(year), Digits(other), Pad6(n));
      SameDigits(year, other);
    }
  }

  // ---------- the ids as an ordered scheme ----------

  /** What the numbering argument needs to know of ids: the id of a year's number, its year, and the order used for
      Max. */
  datatype Scheme<!T> = Scheme(id: (nat, nat) -> T, ofYear: (nat, T) -> bool, le: (T, T) -> bool)

  ghost predicate Sound<T(!new)>(s: Scheme<T>) {
    && TotalOrder(s.le)
    && (forall y: nat, z: nat, n: nat :: s.ofYear(y, s.id(z, n)) <==> y == z)
    && (forall y: nat, m: nat, n: nat :: m < n < LIMIT ==> s.le(s.id(y, m), s.id(y, n)))
    && (forall y: nat, m: nat, n: nat :: s.id(y, m) == s.id(y, n) ==> m == n)
    && (forall y: nat :: s.le(s.id(y, LIMIT), s.id(y, LIMIT - 1)))
  }

  ghost function VisibleScheme(tag: string): Scheme<string> {
    Scheme((y, n) => Id(tag, y, n), (y, s) => Prefix(tag, y) <= s, (a, b) => StringLe(a, b))
  }

  lemma IdLess(tag: string, year: nat, m: nat, n: nat)
    requires m < n < LIMIT
    ensures StringLe(Id(tag, year, m), Id(tag, year, n))
  {
    StringLePrefix(Prefix(tag, year), Pad6(m), Pad6(n));
    Pad6Order(m, n);
  }

  lemma IdInjective(tag: string, year: nat, m: nat, n: nat)
    requires Id(tag, year, m) == Id(tag, year, n)
    ensures m == n
  {
    var p := Prefix(tag, year);
    assert Pad6(m) == (p + Pad6(m))[|p|..] == (p + Pad6(n))[|p|..] == Pad6(n);
    Pad6Value(m);
    Pad6Value(n);
  }

  lemma MillionthIdSortsLow(tag: string, year: nat)
    ensures StringLe(Id(tag, year, LIMIT), Id(tag, year, LIMIT - 1))
  {
    StringLePrefix(Prefix(tag, year), Pad6(LIMIT), Pad6(LIMIT - 1));
    MillionSortsLow();
  }

  lemma StringOrderTotal()
    ensures TotalOrder((a, b) => StringLe(a, b))
  {
    forall a, b { StringLeTotal(a, b); }
    forall a, b, c | StringLe(a, b) && StringLe(b, c) ensures StringLe(a, c) { StringLeTransitive(a, b, c); }
  }

  /** Zero padding makes the string maximum the numeric maximum, except that number 1000000 sorts below 999999. */
  lemma VisibleSchemeSound(tag: string)
    ensures Sound(VisibleScheme(tag))
  {
    StringOrderTotal();
    forall y: nat, z: nat, n: nat { PrefixOfId(tag, y, z, n); }
    forall y: nat, m: nat, n: nat | m < n < LIMIT ensures StringLe(Id(tag, y, m), Id(tag, y, n)) {
      IdLess(tag, y, m, n);
    }
    forall y: nat, m: nat, n: nat | Id(tag, y, m) == Id(tag, y, n) ensures m == n { IdInjective(tag, y, m, n); }
    forall y: nat { MillionthIdSortsLow(tag, y); }
  }

  // ---------- runs of creations ----------

  function Occurrences(years: seq<nat>, year: nat): nat { multiset(years)[year] }

  /** How many ids a year has after a run of creations, given by the year of each. */
  function Count(years: seq<nat>, year: nat): nat {
    var wanted := Occurrences(years, year);
    if wanted < LIMIT then wanted else LIMIT
  }

  ghost predicate IsIssued<T>(s: Scheme<T>, years: seq<nat>, x: T) {
    exists y: nat, n: nat :: 1 <= n <= Count(years, y) && x == s.id(y, n)
  }

  /** After the run, the table holds exactly the numbers 1..Count of every year. */
  ghost predicate Numbered<T(!new)>(s: Scheme<T>, ids: set<T>, years: seq<nat>) {
    forall x :: x in ids <==> IsIssued(s, years, x)
  }

  ghost predicate Greatest<T>(s: Scheme<T>, ids: set<T>, year: nat, greatest: Option<T>) {
    match greatest
    case None => forall x :: x in ids ==> !s.ofYear(year, x)
    case Some(m) => m in ids && s.ofYear(year, m) && forall x :: x in ids && s.ofYear(year, x) ==> s.le(x, m)
  }

  lemma IdsOfYear<T(!new)>(s: Scheme<T>, ids: set<T>, years: seq<nat>, year: nat, x: T) returns (n: nat)
    requires Sound(s) && Numbered(s, ids, years) && x in ids && s.ofYear(year, x)
    ensures 1 <= n <= Count(years, year) && x == s.id(year, n)
  {
    assert IsIssued(s, years, x);
    var y: nat, m: nat :| 1 <= m <= Count(years, y) && x == s.id(y, m);
    n := m;
  }

  /** The number whose id is the maximum of a year with `c` ids. */
  function Top(c: nat): nat { if c < LIMIT then c else LIMIT - 1 }

  lemma BelowTop<T(!new)>(s: Scheme<T>, ids: set<T>, years: seq<nat>, year: nat, x: T)
    requires Sound(s) && Numbered(s, ids, years) && x in ids && s.ofYear(year, x)
    ensures s.le(x, s.id(year, Top(Count(years, year))))
  {
    var n := IdsOfYear(s, ids, years, year, x);
    assert n == Top(Count(years, year)) || n < Top(Count(years, year)) || n == LIMIT;
  }

  /** The maximum of a year's ids is its last number, up to and including 999999. */
  lemma GreatestIsCount<T(!new)>(s: Scheme<T>, ids: set<T>, years: seq<nat>, year: nat, greatest: Option<T>)
    requires Sound(s) && Numbered(s, ids, years) && Greatest(s, ids, year, greatest)
    ensures var c := Count(years, year); greatest == if c == 0 then None else Some(s.id(year, Top(c)))
  {
    var c := Count(years, year);
    if c == 0 {
      if greatest.Some? {
        var n := IdsOfYear(s, ids, years, year, greatest.value);
      }
    } else {
      assert IsIssued(s, years, s.id(year, Top(c)));
      BelowTop(s, ids, years, year, greatest.value);
    }
  }

  lemma CountAfter(years: seq<nat>, year: nat, y: nat)
    ensures Count(years + [year], y) == if y == year
            && Count(years, y) < LIMIT then Count(years, y) + 1 else Count(years, y)
  {
    assert multiset(years + [year]) == multiset(years) + multiset([year]);
    assert Occurrences(years + [year], y) == Occurrences(years, y) + (if y == year then 1 else 0);
  }

  /** The next number is free and greater than all before it exactly while fewer than a million were issued. */
  lemma NextIsFree<T(!new)>(s: Scheme<T>, ids: set<T>, years: seq<nat>, year: nat)
    requires Sound(s) && Numbered(s, ids, years)
    ensures var c := Count(years, year);
      && (c < LIMIT ==> s.id(year, c + 1) !in ids)
      && (c < LIMIT - 1 ==> forall x :: x in ids && s.ofYear(year, x) ==> s.le(x, s.id(year, c + 1)))
      && (c == LIMIT ==> s.id(year, LIMIT) in ids)
  {
    var c := Count(years, year);
    if c < LIMIT && s.id(year, c + 1) in ids {
      var n := IdsOfYear(s, ids, years, year, s.id(year, c + 1));
      assert false;
    }
    if c < LIMIT - 1 {
      forall x | x in ids && s.ofYear(year, x) ensures s.le(x, s.id(year, c + 1)) {
        var n := IdsOfYear(s, ids, years, year, x);
      }
    }
    assert c == LIMIT ==> IsIssued(s, years, s.id(year, LIMIT));
  }

  lemma Extend<T(!new)>(s: Scheme<T>, ids: set<T>, years: seq<nat>, year: nat)
    requires Numbered(s, ids, years)
    ensures var c := Count(years, year);
      Numbered(s, if c < LIMIT then ids + {s.id(year, c + 1)} else ids, years + [year])
  {
    var c := Count(years, year);
    var more := if c < LIMIT then ids + {s.id(year, c + 1)} else ids;
    forall y: nat { CountAfter(years, year, y); }
    forall x ensures x in more <==> IsIssued(s, years + [year], x) {
      if x in ids {
        assert IsIssued(s, years, x);
        var y: nat, n: nat :| 1 <= n <= Count(years, y) && x == s.id(y, n);
        assert n <= Count(years + [year], y);
      } else if x in more {
        assert c + 1 <= Count(years + [year], year);
      }
      if IsIssued(s, years + [year], x) {
        var y: nat, n: nat :| 1 <= n <= Count(years + [year], y) && x == s.id(y, n);
        assert n <= Count(years, y) || (y == year && n == c + 1);
        assert n <= Count(years, y) ==> IsIssued(s, years, x);
      }
    }
  }

  lemma NextNoOfId(tag: string, year: nat, n: nat)
    requires n < LIMIT
    ensures NextNo(Some(Id(tag, year, n)), Prefix(tag, year)) == n + 1
  {
    Pad6Value(n);
    assert Id(tag, year, n)[|Prefix(tag, year)|..] == Pad6(n);
  }

  /** The next number read back from the string maximum, in any state reached by creations. */
  lemma NextIdMeaning(tag: string, ids: set<string>, years: seq<nat>, year: nat, greatest: Option<string>)
    requires Numbered(VisibleScheme(tag), ids, years) && IsGreatest(ids, Prefix(tag, year), greatest)
    ensures var c := Count(years, year);
      var next := NextNo(greatest, Prefix(tag, year));
      && next == (if c < LIMIT then c + 1 else LIMIT)
      && (Id(tag, year, next) !in ids <==> c < LIMIT)
      && (c < LIMIT - 1 ==> forall x :: x in ids && Prefix(tag, year) <= x ==> StringLe(x, Id(tag, year, next)))
      && Numbered(VisibleScheme(tag), if c < LIMIT then ids + {Id(tag, year, next)} else ids, years + [year])
  {
    var s, c := VisibleScheme(tag), Count(years, year);
    VisibleSchemeSound(tag);
    assert Greatest(s, ids, year, greatest);
    GreatestIsCount(s, ids, years, year, greatest);
    NextIsFree(s, ids, years, year);
    Extend(s, ids, years, year);
    if c > 0 { NextNoOfId(tag, year, Top(c)); }
  }

  class VisibleIdTable {
    const tag: string
    var issued: set<string>
    ghost var years: seq<nat>

    ghost predicate Valid()
      reads this
    {
      Numbered(VisibleScheme(tag), issued, years)
    }

    constructor (tag: string)
      ensures Valid() && issued == {} && years == [] && this.tag == tag
    {
      this.tag := tag;
      issued, years := {}, [];
    }

    /** Saves one new row of the given year. Creation c + 1 gets number c + 1 while c is below a million; from then on
        the string maximum is stuck at 999999 and the unique constraint refuses every further row of the year. */
    method Assign(year: nat) returns (id: Result<string>)
      requires Valid()
      modifies this
      ensures Valid() && years == old(years) + [year]
      ensures var c := Count(old(years), year);
        if c < LIMIT then id == Ok(Id(tag, year, c + 1)) && id.value !in old(issued)
           && issued == old(issued) + {id.value}
        else id == Raised && issued == old(issued)
    {
      var prefix := Prefix(tag, year);
      var greatest := MaxVisibleId(issued, prefix);
      NextIdMeaning(tag, issued, years, year, greatest);
      var candidate := Id(tag, year, NextNo(greatest, prefix));
      years := years + [year];
      if candidate in issued {
        return Raised;
      }
      issued := issued + {candidate};
      return Ok(candidate);
    }
  }
}
