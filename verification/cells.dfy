/**
 The results table's size and age cells, their parsers, and the tie break. Fractions are
 exact: sizes in tenths of the unit shown, parsed values in tenths of a byte.
 */
module Cells {
  import opened Wrappers
  import opened Text
  import opened Sorting

  const UNITS := ["B", "KB", "MB", "GB", "TB", "PB"]

  // ----- sizes -----

  function Scale(unit: nat): nat {
    if unit == 0 then 1 else 1024 * Scale(unit - 1)
  }

  /** How many times the scaling loop runs from unit on: while 1024 of it or more are left, up to the last unit. */
  function UnitFrom(n: nat, unit: nat): (u: nat)
    requires unit <= 5
    ensures unit <= u <= 5
    decreases 5 - unit
  {
    if unit < 5 && n >= 1024 * Scale(unit) then UnitFrom(n, unit + 1) else unit
  }

  function UnitOf(n: nat): (u: nat)
    ensures u <= 5
  {
    UnitFrom(n, 0)
  }

  /** Tenths of the unit, truncated. */
  function Tenths(n: nat): nat {
    ScalePositive(UnitOf(n));
    10 * n / Scale(UnitOf(n))
  }

  /** "%.1f" of a number of tenths below 1000 of the unit, "%.0f" from there on. */
  function ShowTenths(t: nat): string {
    if t >= 10000 then Show(t / 10) else Show(t / 10) + "." + [DigitChar(t % 10)]
  }

  function FormatSize(n: int): string {
    if n < 1024 then ShowInt(n) + " B" else ShowTenths(Tenths(n)) + " " + UNITS[UnitOf(n)]
  }

  /** strings.Fields, spaces only. */
  function Fields(s: string): seq<string> {
    FieldsFrom(s, "")
  }

  function FieldsFrom(s: string, word: string): seq<string>
    decreases |s|
  {
    if s == "" then (if word == "" then [] else [word])
    else if s[0] == ' ' then (if word == "" then [] else [word]) + FieldsFrom(s[1..], "")
    else FieldsFrom(s[1..], word + [s[0]])
  }

  predicate Digits(s: string) {
    s != "" && forall i | 0 <= i < |s| :: IsDigit(s[i])
  }

  /** A decimal with at most one digit after the point, in tenths. */
  function ParseNumber(s: string): Option<int> {
    if s != "" && s[0] == '-' then
      var r := ParseUnsigned(s[1..]);
      if r.Some? then Some(-r.value) else None
    else ParseUnsigned(s)
  }

  function ParseUnsigned(s: string): Option<int> {
    if Digits(s) then Some(10 * Read(s))
    else if |s| >= 3 && s[|s| - 2] == '.' && IsDigit(s[|s| - 1]) && Digits(s[..|s| - 2]) then
      Some(10 * Read(s[..|s| - 2]) + (s[|s| - 1] as int - '0' as int))
    else None
  }

  function UnitIndex(u: string): Option<nat> {
    if u == "B" then Some(0) else if u == "KB" then Some(1) else if u == "MB" then Some(2)
    else if u == "GB" then Some(3) else if u == "TB" then Some(4) else if u == "PB" then Some(5) else None
  }

  /** parseSize, in tenths of a byte. */
  function ParseSize(cell: string): int {
    var fields := Fields(cell);
    if |fields| != 2 then 0
    else
      var val, unit := ParseNumber(fields[0]), UnitIndex(fields[1]);
      if val.None? || unit.None? then 0 else val.value * Scale(unit.value)
  }

  predicate SizeLess(a: string, b: string) {
    ParseSize(a) < ParseSize(b)
  }

  // ----- reading back -----

  lemma {:induction false} FieldsWord(a: string, rest: string, word: string)
    requires ' ' !in a
    ensures FieldsFrom(a + rest, word) == FieldsFrom(rest, word + a)
    decreases |a|
  {
    if a == "" {
      assert a + rest == rest && word + a == word;
    } else {
      assert (a + rest)[0] == a[0] && (a + rest)[1..] == a[1..] + rest;
      FieldsWord(a[1..], rest, word + [a[0]]);
      assert word + [a[0]] + a[1..] == word + a;
    }
  }

  lemma TwoFields(a: string, b: string)
    requires a != "" && b != "" && ' ' !in a && ' ' !in b
    ensures Fields(a + " " + b) == [a, b]
  {
    FieldsWord(a, " " + b, "");
    assert a + " " + b == a + (" " + b) && "" + a == a;
    assert (" " + b)[0] == ' ' && (" " + b)[1..] == b;
    FieldsWord(b, "", "");
    assert b + "" == b && "" + b == b;
  }

  lemma ShowDigits(n: nat)
    ensures Digits(Show(n)) && ' ' !in Show(n)
  {
  }

  lemma ParseShowInt(n: int)
    ensures ParseNumber(ShowInt(n)) == Some(10 * n) && ShowInt(n) != "" && ' ' !in ShowInt(n)
  {
    var m := if n < 0 then -n else n;
    ReadShow(m);
    ShowDigits(m);
    if n < 0 {
      assert ShowInt(n)[0] == '-' && ShowInt(n)[1..] == Show(m);
    } else {
      assert IsDigit(ShowInt(n)[0]);
    }
  }

  /** Reading a shown number of tenths gives it back, or the tenths dropped from 1000 on. */
  lemma ParseShowTenths(t: nat)
    ensures ParseNumber(ShowTenths(t)) == Some(if t >= 10000 then t / 10 * 10 else t)
    ensures ShowTenths(t) != "" && ' ' !in ShowTenths(t)
  {
    ReadShow(t / 10);
    ShowDigits(t / 10);
    var s := ShowTenths(t);
    assert IsDigit(s[0]) by { assert s[0] == Show(t / 10)[0]; }
    if t < 10000 {
      assert s[..|s| - 2] == Show(t / 10) && s[|s| - 2] == '.' && s[|s| - 1] == DigitChar(t % 10);
      assert !Digits(s) by { assert !IsDigit(s[|s| - 2]); }
    }
  }

  /** What the cell of n reads back as. */
  lemma ParseFormat(n: int)
    ensures ParseSize(FormatSize(n)) ==
      if n < 1024 then 10 * n
      else (if Tenths(n) >= 10000 then Tenths(n) / 10 * 10 else Tenths(n)) * Scale(UnitOf(n))
  {
    if n < 1024 {
      ParseShowInt(n);
      TwoFields(ShowInt(n), "B");
      assert ShowInt(n) + " B" == ShowInt(n) + " " + "B";
      assert 10 * n * Scale(0) == 10 * n;
    } else {
      var u := UnitOf(n);
      ParseShowTenths(Tenths(n));
      assert UNITS[u] != "" && ' ' !in UNITS[u] && UnitIndex(UNITS[u]) == Some(u);
      TwoFields(ShowTenths(Tenths(n)), UNITS[u]);
    }
  }

  // ----- order -----

  lemma {:induction false} ScalePositive(u: nat)
    ensures Scale(u) > 0
  {
    if u > 0 { ScalePositive(u - 1); }
  }

  lemma {:induction false} ScaleGrows(u: nat, v: nat)
    requires u < v
    ensures 1024 * Scale(u) <= Scale(v)
    decreases v
  {
    if u < v - 1 { ScaleGrows(u, v - 1); }
    ScalePositive(v - 1);
  }

  lemma {:induction false} UnitFits(n: nat, unit: nat)
    requires unit <= 5 && (unit > 0 ==> n >= Scale(unit))
    ensures var u := UnitFrom(n, unit); (u > 0 ==> n >= Scale(u)) && (u < 5 ==> n < 1024 * Scale(u))
    decreases 5 - unit
  {
  }

  /** The unit is the largest that n fills, and grows with n. */
  lemma UnitGrows(m: nat, n: nat)
    requires m <= n
    ensures UnitOf(m) <= UnitOf(n)
  {
  }

  lemma Floor(a: nat, p: nat)
    requires p > 0
    ensures a / p * p <= a < a / p * p + p
  {
  }

  /** What is lost at most: a tenth of the unit, or one of it from 1000 on, in tenths of a byte. */
  function Step(n: int): int {
    if n < 1024 then 1 else if Tenths(n) >= 10000 then 10 * Scale(UnitOf(n)) else Scale(UnitOf(n))
  }

  /** A cell never reads as more than it stands for, nor short of it by a displayed step or more. */
  lemma SizeTruncated(n: int)
    ensures var v := ParseSize(FormatSize(n)); v <= 10 * n < v + Step(n)
  {
    ParseFormat(n);
    if n >= 1024 {
      var p, t := Scale(UnitOf(n)), Tenths(n);
      ScalePositive(UnitOf(n));
      Floor(10 * n, p);
      if t >= 10000 { Dropped(10 * n, t, p); }
    }
  }

  /** Dropping the tenths loses less than one more unit. */
  lemma Dropped(a: nat, t: nat, p: nat)
    requires t * p <= a < t * p + p
    ensures t / 10 * 10 * p <= a < t / 10 * 10 * p + 10 * p
  {
    var q := t / 10 * 10;
    Scaled(q, t, p);
    Scaled(t + 1, q + 10, p);
    assert (t + 1) * p == t * p + p && (q + 10) * p == q * p + 10 * p;
  }

  lemma Scaled(a: int, b: int, p: nat)
    requires a <= b
    ensures a * p <= b * p
  {
  }

  lemma Divided(a: nat, b: nat, p: nat)
    requires a <= b && p > 0
    ensures a / p <= b / p
  {
    Floor(a, p);
    Floor(b, p);
    assert (b / p + 1) * p == b / p * p + p;
    if a / p > b / p { Scaled(b / p + 1, a / p, p); }
  }

  /** At least ten tenths of the unit are shown. */
  lemma UnitShown(n: nat)
    requires n >= 1024
    ensures UnitOf(n) > 0 && Tenths(n) >= 10 && ParseSize(FormatSize(n)) >= 10 * Scale(UnitOf(n))
  {
    var u := UnitOf(n);
    UnitFits(n, 0);
    assert Scale(1) == 1024 * Scale(0) && Scale(0) == 1;
    assert u > 0;
    ScalePositive(u);
    Divided(10 * Scale(u), 10 * n, Scale(u));
    assert 10 * Scale(u) / Scale(u) == 10;
    ParseFormat(n);
    var t := Tenths(n);
    Scaled(10, if t >= 10000 then t / 10 * 10 else t, Scale(u));
  }

  /** Across every unit boundary and the drop of the decimal: a larger size never reads as less. */
  lemma SizeMonotone(m: int, n: int)
    requires m <= n
    ensures ParseSize(FormatSize(m)) <= ParseSize(FormatSize(n))
  {
    ParseFormat(m);
    ParseFormat(n);
    SizeTruncated(m);
    if n >= 1024 {
      UnitShown(n);
      var v := UnitOf(n);
      if m < 1024 {
        ScaleGrows(0, v);
      } else {
        UnitGrows(m, n);
        var u := UnitOf(m);
        if u < v {
          UnitFits(m, 0);
          ScaleGrows(u, v);
        } else {
          ScalePositive(u);
          Divided(10 * m, 10 * n, Scale(u));
          SameUnit(Tenths(m), Tenths(n), Scale(u));
        }
      }
    }
  }

  lemma SameUnit(s: nat, t: nat, p: nat)
    requires s <= t
    ensures (if s >= 10000 then s / 10 * 10 else s) * p <= (if t >= 10000 then t / 10 * 10 else t) * p
  {
    Scaled(if s >= 10000 then s / 10 * 10 else s, if t >= 10000 then t / 10 * 10 else t, p);
  }

  lemma UnitExact(n: nat, k: nat)
    requires 1 <= k <= 5 && Scale(k) <= n && (k < 5 ==> n < Scale(k + 1))
    ensures UnitOf(n) == k && n >= 1024
  {
    hide Scale, UnitFrom;
    UnitFits(n, 0);
    var u := UnitOf(n);
    ScaleOne();
    UpTo(1, k);
    if u < k {
      ScaleNext(u);
      UpTo(u + 1, k);
    } else if k < u {
      UpTo(k + 1, u);
    }
  }

  lemma ScaleOne()
    ensures Scale(0) == 1 && Scale(1) == 1024
  {
  }

  lemma ScaleNext(u: nat)
    ensures Scale(u + 1) == 1024 * Scale(u)
  {
  }

  lemma QuotientIs(a: nat, t: nat, p: nat)
    requires p > 0 && t * p <= a < (t + 1) * p
    ensures a / p == t
  {
    Floor(a, p);
    assert (a / p + 1) * p == a / p * p + p;
    if a / p < t { Scaled(a / p + 1, t, p); } else if t < a / p { Scaled(t + 1, a / p, p); }
  }

  /** The largest unit of which one is full, and how many of it to a tenth; from 1000 on without the tenth. */
  lemma SizeExact(n: nat, k: nat, t: nat)
    requires 1 <= k <= 5 && Scale(k) <= n && (k < 5 ==> n < Scale(k + 1))
    requires t * Scale(k) <= 10 * n < (t + 1) * Scale(k)
    ensures FormatSize(n) ==
            (if t < 10000 then Show(t / 10) + "." + Show(t % 10) else Show(t / 10)) + " " +
            ["KB", "MB", "GB", "TB", "PB"][k - 1]
  {
    hide Scale, UnitOf;
    UnitExact(n, k);
    ScalePositive(k);
    QuotientIs(10 * n, t, Scale(k));
  }

  /** Below 1024, and only there, the size is shown in bytes. */
  lemma SizeInBytes(n: int)
    ensures n < 1024 <==> FormatSize(n) == ShowInt(n) + " B"
  {
    if n >= 1024 {
      UnitShown(n);
      var cell := FormatSize(n);
      assert cell[|cell| - 2] == UNITS[UnitOf(n)][0];
    }
  }

  lemma UpTo(u: nat, v: nat)
    requires u <= v
    ensures Scale(u) <= Scale(v)
  {
    ScalePositive(u);
    if u < v { ScaleGrows(u, v); }
  }

  /** Sorting by what the cells say never contradicts the sizes. */
  lemma SizeLessTrue(m: int, n: int)
    requires SizeLess(FormatSize(m), FormatSize(n))
    ensures m < n
  {
    if n <= m { SizeMonotone(n, m); }
  }

  const INT64: nat := 0x8000_0000_0000_0000

  lemma ShowLength(n: nat)
    requires n < 10000
    ensures |Show(n)| <= 4 && (n < 1000 ==> |Show(n)| <= 3)
  {
    var a := n / 10;
    var b := a / 10;
    var c := b / 10;
    assert c < 10 && |Show(c)| == 1;
    assert |Show(b)| <= 2 && (b < 10 ==> |Show(b)| == 1);
    assert |Show(a)| <= 3 && (a < 100 ==> |Show(a)| <= 2);
  }

  /** A size below 2^63 fits the column's 8 cells. */
  lemma SizeFits(n: nat)
    requires n < INT64
    ensures |FormatSize(n)| <= 8
  {
    if n < 1024 {
      ShowLength(n);
    } else {
      var u := UnitOf(n);
      UnitFits(n, 0);
      ScalePositive(u);
      assert Scale(3) == 0x4000_0000;
      assert Scale(5) == 0x4_0000_0000_0000;
      assert n < 8192 * Scale(u) by { if u < 5 { Scaled(1024, 8192, Scale(u)); } }
      Floor(10 * n, Scale(u));
      if Tenths(n) >= 81920 { Scaled(81920, Tenths(n), Scale(u)); }
      ShowLength(Tenths(n) / 10);
      assert |UNITS[u]| == 2 by { UnitShown(n); }
    }
  }

  /** The fraction the loop divides down. */
  datatype Ratio = Ratio(num: nat, den: nat)

  /** formatSize's scaling loop, over exact fractions. */
  method ScaleDown(n: nat) returns (f: Ratio, unit: nat)
    ensures unit == UnitOf(n) && f == Ratio(n, Scale(unit))
  {
    f, unit := Ratio(n, 1), 0;
    while f.num >= 1024 * f.den && unit < 5
      invariant unit <= 5 && f == Ratio(n, Scale(unit)) && UnitOf(n) == UnitFrom(n, unit)
    {
      f, unit := Ratio(f.num, 1024 * f.den), unit + 1;
    }
  }

  method SizeCell(n: int) returns (cell: string)
    ensures cell == FormatSize(n)
  {
    if n < 1024 {
      return ShowInt(n) + " B";
    }
    var f, unit := ScaleDown(n);
    ScalePositive(unit);
    var tenths := 10 * f.num / f.den;
    cell := ShowTenths(tenths) + " " + UNITS[unit];
  }

  // ----- ages -----

  const NANOS := 1_000_000_000
  const AGE_UNKNOWN := "-"

  /** Seconds in an age unit: s, m, h, d, y. */
  function AgeUnit(c: char): Option<nat> {
    if c == 's' then Some(1) else if c == 'm' then Some(60) else if c == 'h' then Some(3600)
    else if c == 'd' then Some(86400) else if c == 'y' then Some(365 * 86400) else None
  }

  /** The unit an age of d nanoseconds is shown in. */
  function AgeChar(d: nat): (c: char)
    ensures AgeUnit(c).Some?
  {
    if d < 60 * NANOS then 's' else if d < 3600 * NANOS then 'm' else if d < 86400 * NANOS then 'h'
    else if d < 365 * 86400 * NANOS then 'd' else 'y'
  }

  /** formatAge of the time passed, none for a result without a date; the future counts as now. */
  function FormatAge(passed: Option<int>): string {
    if passed.None? then AGE_UNKNOWN
    else
      var d := if passed.value < 0 then 0 else passed.value;
      Show(d / (AgeUnit(AgeChar(d)).value * NANOS)) + [AgeChar(d)]
  }

  /** parseAgeSeconds. */
  function ParseAge(cell: string): int {
    if cell == "" || cell == AGE_UNKNOWN then 0
    else
      var unit, digits := AgeUnit(cell[|cell| - 1]), cell[..|cell| - 1];
      if !Digits(digits) || unit.None? then 0 else Read(digits) * unit.value
  }

  lemma ParseFormatAge(d: nat)
    ensures var u := AgeUnit(AgeChar(d)).value; ParseAge(FormatAge(Some(d))) == d / (u * NANOS) * u
  {
    var u := AgeUnit(AgeChar(d)).value;
    var k := d / (u * NANOS);
    ReadShow(k);
    ShowDigits(k);
    var cell := Show(k) + [AgeChar(d)];
    assert cell[..|cell| - 1] == Show(k) && cell[|cell| - 1] == AgeChar(d);
    assert |cell| > 1;
  }

  lemma Regroup(k: nat, u: nat, n: nat)
    ensures k * (u * n) == k * u * n && k * (u * n) + u * n == (k * u + u) * n
  {
  }

  /** An age cell reads as the time passed, short of it by less than its unit. */
  lemma AgeTruncated(d: nat)
    ensures var v, u := ParseAge(FormatAge(Some(d))), AgeUnit(AgeChar(d)).value;
      v * NANOS <= d < (v + u) * NANOS
  {
    var u := AgeUnit(AgeChar(d)).value;
    ParseFormatAge(d);
    Floor(d, u * NANOS);
    Regroup(d / (u * NANOS), u, NANOS);
  }

  /** The largest unit of which one has passed, or seconds, and how many of it. */
  lemma AgeExact(d: nat) returns (k: nat, u: nat, c: char)
    ensures FormatAge(Some(d)) == Show(k) + [c] && k * (u * NANOS) <= d < (k + 1) * (u * NANOS)
    ensures (c, u) in [('s', 1), ('m', 60), ('h', 3600), ('d', 86400), ('y', 365 * 86400)]
    ensures u > 1 ==> u * NANOS <= d
    ensures forall v | v in [60, 3600, 86400, 365 * 86400] && u < v :: d < v * NANOS
    ensures forall e: int | e < 0 :: FormatAge(Some(e)) == FormatAge(Some(0))
  {
    c := AgeChar(d);
    u := AgeUnit(c).value;
    k := d / (u * NANOS);
    Floor(d, u * NANOS);
    Regroup(k, u, NANOS);
    assert (k + 1) * (u * NANOS) == k * (u * NANOS) + u * NANOS;
  }

  lemma AgeUnitGrows(d: nat, e: nat)
    requires d <= e
    ensures AgeUnit(AgeChar(d)).value <= AgeUnit(AgeChar(e)).value
    ensures AgeUnit(AgeChar(d)).value < AgeUnit(AgeChar(e)).value ==> d < AgeUnit(AgeChar(e)).value * NANOS <= e
  {
  }

  /** An older result never reads as younger, across every unit boundary. */
  lemma AgeMonotone(d: nat, e: nat)
    requires d <= e
    ensures ParseAge(FormatAge(Some(d))) <= ParseAge(FormatAge(Some(e)))
  {
    AgeUnitGrows(d, e);
    ParseFormatAge(d);
    ParseFormatAge(e);
    var u, v := AgeUnit(AgeChar(d)).value, AgeUnit(AgeChar(e)).value;
    if u == v {
      Divided(d, e, u * NANOS);
      Scaled(d / (u * NANOS), e / (u * NANOS), u);
    } else {
      AgeTruncated(d);
      Divided(v * NANOS, e, v * NANOS);
      assert v * NANOS / (v * NANOS) == 1;
      Scaled(1, e / (v * NANOS), v);
    }
  }

  /** ageSortMissing: the cell of a result without a date. */
  predicate AgeMissing(cell: string) {
    cell == AGE_UNKNOWN
  }

  /** A result without a date shows a dash, which is how the sort tells it from every other. */
  lemma MissingExactly(passed: Option<int>)
    ensures AgeMissing(FormatAge(passed)) <==> passed.None?
    ensures FormatAge(None) == "-" && ParseAge("-") == 0
  {
    if passed.Some? {
      var cell := FormatAge(passed);
      var d := if passed.value < 0 then 0 else passed.value;
      assert cell[|cell| - 1] == AgeChar(d);
    }
  }

  lemma AgeLessTrue(d: nat, e: nat)
    requires ParseAge(FormatAge(Some(d))) < ParseAge(FormatAge(Some(e)))
    ensures d < e
  {
    if e <= d { AgeMonotone(e, d); }
  }

  // ----- the tie break -----

  /** A row as the tie break sees it: its seeders, -1 when unknown, its title, its id. */
  datatype Row = Row(seeders: int, title: string, id: string)

  /** resultTieBreak. */
  predicate TieBreak(a: Row, b: Row) {
    if a.seeders != b.seeders then a.seeders > b.seeders
    else if Lower(a.title) != Lower(b.title) then Less(Lower(a.title), Lower(b.title))
    else Less(a.id, b.id)
  }

  /** The tie break is a strict order in which no two rows with different ids tie. */
  lemma TieBreakTotal(a: Row, b: Row, c: Row)
    ensures !TieBreak(a, a)
    ensures TieBreak(a, b) && TieBreak(b, c) ==> TieBreak(a, c)
    ensures a.id != b.id ==> (TieBreak(a, b) <==> !TieBreak(b, a))
  {
    var x, y, z := Lower(a.title), Lower(b.title), Lower(c.title);
    LessIrreflexive(a.id);
    LessTotal(a.id, b.id);
    LessTotal(x, y);
    if Less(a.id, b.id) { LessAsymmetric(a.id, b.id); }
    if Less(b.id, a.id) { LessAsymmetric(b.id, a.id); }
    if Less(x, y) { LessAsymmetric(x, y); }
    if Less(y, x) { LessAsymmetric(y, x); }
    if Less(x, y) && Less(y, z) { LessTransitive(x, y, z); LessAsymmetric(x, z); }
    if Less(a.id, b.id) && Less(b.id, c.id) { LessTransitive(a.id, b.id, c.id); }
  }

  /** Of two rows the tie break put in order, the earlier has more seeders, then the lower title, then the lower id. */
  lemma RowsInOrder(rows: seq<Row>, i: nat, j: nat)
    requires Ascending(TieBreak, rows) && i < j < |rows|
    ensures var a, b := rows[i], rows[j];
      && a.seeders >= b.seeders
      && (a.seeders == b.seeders ==> Lower(a.title) == Lower(b.title) || Less(Lower(a.title), Lower(b.title)))
      && (a.seeders == b.seeders && Lower(a.title) == Lower(b.title) ==> Less(a.id, b.id))
  {
    assert TieBreak(rows[i], rows[j]);
  }

  /** Rows it ranks stand in one order only, however they were listed. */
  lemma OneOrder(a: seq<Row>, b: seq<Row>)
    requires Ascending(TieBreak, a) && Ascending(TieBreak, b)
    requires forall r :: r in a <==> r in b
    ensures a == b
  {
    forall x: Row, y: Row | TieBreak(x, y)
      ensures !TieBreak(y, x)
    {
      TieBreakTotal(x, y, x);
    }
    AscendingUnique(TieBreak, a, b);
  }
}
