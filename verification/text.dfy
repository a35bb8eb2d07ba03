/** Decimal numbers and strings in byte order, as far as keys and cells need them. */
module Text {
  import opened Wrappers

  // ----- letters and spaces -----

  function LowerChar(c: char): char {
    if 'A' <= c <= 'Z' then (c - 'A') + 'a' else c
  }

  function Lower(s: string): string {
    seq(|s|, i requires 0 <= i < |s| => LowerChar(s[i]))
  }

  /** The same character, or one letter in its two cases. */
  predicate SameLetter(c: char, d: char) {
    || c == d
    || ('A' <= c <= 'Z' && d as int - 'a' as int == c as int - 'A' as int)
    || ('A' <= d <= 'Z' && c as int - 'a' as int == d as int - 'A' as int)
  }

  /** Lowercased they are equal exactly when they differ in case alone. */
  lemma LowerTells(a: string, b: string)
    ensures Lower(a) == Lower(b) <==> |a| == |b| && forall i | 0 <= i < |a| :: SameLetter(a[i], b[i])
  {
    forall c: char, d: char
      ensures LowerChar(c) == LowerChar(d) <==> SameLetter(c, d)
    {
    }
    if Lower(a) == Lower(b) {
      assert |a| == |Lower(a)| == |b|;
      forall i | 0 <= i < |a|
        ensures SameLetter(a[i], b[i])
      {
        assert Lower(a)[i] == Lower(b)[i];
      }
    }
  }

  predicate IsSpace(c: char) {
    c == ' ' || c == '\t' || c == '\n' || c == '\r'
  }

  /** Nothing but space. */
  predicate Blank(s: string) {
    forall i | 0 <= i < |s| :: IsSpace(s[i])
  }

  // ----- decimal -----

  predicate IsDigit(c: char) {
    '0' <= c <= '9'
  }

  function DigitChar(d: nat): (c: char)
    requires d < 10
    ensures IsDigit(c) && c as int - '0' as int == d
  {
    '0' + d as char
  }

  /** A number in decimal, without leading zeros. */
  function Show(n: nat): (s: string)
    ensures s != "" && forall i | 0 <= i < |s| :: IsDigit(s[i])
  {
    if n < 10 then [DigitChar(n)] else Show(n / 10) + [DigitChar(n % 10)]
  }

  /** The number a string of digits names. */
  function Read(s: string): nat
    requires forall i | 0 <= i < |s| :: IsDigit(s[i])
  {
    if s == "" then 0 else assert IsDigit(s[|s| - 1]); 10 * Read(s[..|s| - 1]) + (s[|s| - 1] as int - '0' as int)
  }

  lemma {:induction false} ReadShow(n: nat)
    ensures Read(Show(n)) == n
  {
    if n >= 10 {
      ReadShow(n / 10);
      assert Show(n)[..|Show(n)| - 1] == Show(n / 10);
    } else {
      assert Show(n)[..0] == "";
    }
  }

  function ShowInt(n: int): string {
    if n < 0 then "-" + Show(-n) else Show(n)
  }

  lemma ShowIntInjective(m: int, n: int)
    requires ShowInt(m) == ShowInt(n)
    ensures m == n
  {
    assert if m < 0 then ShowInt(m)[0] == '-' else IsDigit(ShowInt(m)[0]);
    assert if n < 0 then ShowInt(n)[0] == '-' else IsDigit(ShowInt(n)[0]);
    ReadShow(if m < 0 then -m else m);
    ReadShow(if n < 0 then -n else n);
    if m < 0 {
      assert ShowInt(m)[1..] == Show(-m) && ShowInt(n)[1..] == Show(-n);
    }
  }

  // ----- byte order -----

  /** Less in byte order: a proper prefix first, else by the first difference. */
  predicate Less(a: string, b: string) {
    if b == "" then false
    else if a == "" then true
    else if a[0] != b[0] then a[0] < b[0]
    else Less(a[1..], b[1..])
  }

  /** They agree up to k, where a ends or has the smaller character. */
  predicate LessFrom(a: string, b: string, k: nat) {
    k <= |a| && k < |b| && a[..k] == b[..k] && (k == |a| || a[k] < b[k])
  }

  lemma {:induction false} LessExact(a: string, b: string)
    ensures Less(a, b) <==> exists k: nat :: LessFrom(a, b, k)
  {
    if a != "" && b != "" && a[0] == b[0] {
      LessExact(a[1..], b[1..]);
      if k: nat :| LessFrom(a[1..], b[1..], k) {
        assert a[..k + 1] == [a[0]] + a[1..][..k] && b[..k + 1] == [b[0]] + b[1..][..k];
        assert LessFrom(a, b, k + 1);
      }
      if k: nat :| LessFrom(a, b, k) {
        assert k > 0 && a[1..][..k - 1] == a[..k][1..] && b[1..][..k - 1] == b[..k][1..];
        assert LessFrom(a[1..], b[1..], k - 1);
      }
    } else if b != "" {
      if a == "" || a[0] < b[0] { assert LessFrom(a, b, 0); }
      if k: nat :| LessFrom(a, b, k) && k > 0 { assert a[..k][0] == b[..k][0]; }
    }
  }

  lemma {:induction false} LessIrreflexive(a: string)
    ensures !Less(a, a)
  {
    if a != "" { LessIrreflexive(a[1..]); }
  }

  lemma {:induction false} LessTransitive(a: string, b: string, c: string)
    requires Less(a, b) && Less(b, c)
    ensures Less(a, c)
  {
    if a != "" && a[0] == b[0] && b[0] == c[0] { LessTransitive(a[1..], b[1..], c[1..]); }
  }

  lemma {:induction false} LessTotal(a: string, b: string)
    ensures Less(a, b) || a == b || Less(b, a)
  {
    if a != "" && b != "" && a[0] == b[0] {
      LessTotal(a[1..], b[1..]);
      if a[1..] == b[1..] { assert a == [a[0]] + a[1..] && b == [b[0]] + b[1..]; }
    }
  }

  lemma LessAsymmetric(a: string, b: string)
    requires Less(a, b)
    ensures !Less(b, a) && a != b
  {
  }

  // ----- joining -----

  function Join(parts: seq<string>, sep: char): string {
    if parts == [] then "" else if |parts| == 1 then parts[0] else parts[0] + [sep] + Join(parts[1..], sep)
  }

  /** Joining nonempty parts that do not contain the separator loses nothing. */
  lemma {:induction false} JoinInjective(a: seq<string>, b: seq<string>, sep: char)
    requires forall p | p in a :: p != "" && sep !in p
    requires forall p | p in b :: p != "" && sep !in p
    requires Join(a, sep) == Join(b, sep)
    ensures a == b
  {
    if a != [] { assert a[0] in a; FirstPart(a, sep); assert Join(a, sep) != ""; }
    if b != [] { assert b[0] in b; FirstPart(b, sep); assert Join(b, sep) != ""; }
    if a != [] && b != [] {
      var s := Join(a, sep);
      assert |a[0]| == |b[0]|;
      assert a[0] == s[..|a[0]|] && b[0] == s[..|b[0]|];
      assert forall p | p in a[1..] :: p in a;
      assert forall p | p in b[1..] :: p in b;
      if |a| > 1 {
        assert Join(a[1..], sep) == s[|a[0]| + 1..] && Join(b[1..], sep) == s[|b[0]| + 1..];
        JoinInjective(a[1..], b[1..], sep);
      }
      assert a == [a[0]] + a[1..] && b == [b[0]] + b[1..];
    }
  }

  /** The first part ends at the first separator, or is everything. */
  lemma FirstPart(a: seq<string>, sep: char)
    requires a != [] && sep !in a[0]
    ensures forall i | 0 <= i < |a[0]| && i < |Join(a, sep)| :: Join(a, sep)[i] != sep
    ensures |Join(a, sep)| >= |a[0]| && Join(a, sep)[..|a[0]|] == a[0]
    ensures |a| == 1 ==> Join(a, sep) == a[0]
    ensures |a| > 1 ==> |Join(a, sep)| > |a[0]| && Join(a, sep)[|a[0]|] == sep
  {
  }
}

/** Stable sorting by a strict weak order, and why its result is the only one. */
module Sorting {
  import opened Wrappers

  ghost predicate StrictWeak<T(!new)>(less: (T, T) -> bool) {
    && (forall a :: !less(a, a))
    && (forall a, b, c :: less(a, b) && less(b, c) ==> less(a, c))
    && (forall a, b, c :: less(a, c) ==> less(a, b) || less(b, c))
  }

  ghost predicate Sorted<T>(less: (T, T) -> bool, s: seq<T>) {
    forall i, j | 0 <= i < j < |s| :: !less(s[j], s[i])
  }

  /** x before the first element it need not follow. */
  function Insert<T>(less: (T, T) -> bool, x: T, s: seq<T>): seq<T> {
    if s == [] then [x] else if less(s[0], x) then [s[0]] + Insert(less, x, s[1..]) else [x] + s
  }

  /** What a stable sort leaves. */
  function Sort<T>(less: (T, T) -> bool, s: seq<T>): seq<T> {
    if s == [] then [] else Insert(less, s[0], Sort(less, s[1..]))
  }

  lemma {:induction false} InsertElements<T>(less: (T, T) -> bool, x: T, s: seq<T>)
    ensures multiset(Insert(less, x, s)) == multiset{x} + multiset(s)
    ensures forall y :: y in Insert(less, x, s) <==> y == x || y in s
  {
    if s != [] && less(s[0], x) {
      InsertElements(less, x, s[1..]);
      assert s == [s[0]] + s[1..];
    }
  }

  lemma {:induction false} InsertSorted<T(!new)>(less: (T, T) -> bool, x: T, s: seq<T>)
    requires StrictWeak(less) && Sorted(less, s)
    ensures Sorted(less, Insert(less, x, s))
  {
    if s == [] {
    } else if less(s[0], x) {
      InsertSorted(less, x, s[1..]);
      InsertElements(less, x, s[1..]);
      var r := Insert(less, x, s[1..]);
      forall j | 0 <= j < |r|
        ensures !less(r[j], s[0])
      {
        assert r[j] in r;
        if r[j] in s[1..] {
          var k :| 0 <= k < |s[1..]| && s[1..][k] == r[j];
          assert s[k + 1] == r[j];
        }
      }
    } else {
      forall j | 0 <= j < |s|
        ensures !less(s[j], x)
      {
        if j > 0 { assert !less(s[j], s[0]); }
      }
    }
  }

  lemma {:induction false} SortSorted<T(!new)>(less: (T, T) -> bool, s: seq<T>)
    requires StrictWeak(less)
    ensures Sorted(less, Sort(less, s))
  {
    if s != [] {
      SortSorted(less, s[1..]);
      InsertSorted(less, s[0], Sort(less, s[1..]));
    }
  }

  lemma {:induction false} SortElements<T>(less: (T, T) -> bool, s: seq<T>)
    ensures multiset(Sort(less, s)) == multiset(s)
    ensures forall y :: y in Sort(less, s) <==> y in s
    ensures |Sort(less, s)| == |s|
  {
    if s != [] {
      SortElements(less, s[1..]);
      InsertElements(less, s[0], Sort(less, s[1..]));
      assert s == [s[0]] + s[1..];
      assert |multiset(Sort(less, s))| == |multiset(s)|;
    }
  }

  predicate Ties<T>(less: (T, T) -> bool, a: T, b: T) {
    !less(a, b) && !less(b, a)
  }

  /** The elements the order does not rank against x, in the order they stand in. */
  function Tied<T>(less: (T, T) -> bool, s: seq<T>, x: T): seq<T> {
    if s == [] then [] else (if Ties(less, s[0], x) then [s[0]] else []) + Tied(less, s[1..], x)
  }

  lemma WeakAt<T(!new)>(less: (T, T) -> bool, a: T, b: T, c: T)
    requires StrictWeak(less)
    ensures !less(a, a) && (less(a, b) && less(b, c) ==> less(a, c)) && (less(a, c) ==> less(a, b) || less(b, c))
  {
  }

  lemma {:induction false} InsertTied<T(!new)>(less: (T, T) -> bool, y: T, s: seq<T>, x: T)
    requires StrictWeak(less)
    ensures Tied(less, Insert(less, y, s), x) == (if Ties(less, y, x) then [y] else []) + Tied(less, s, x)
  {
    hide StrictWeak;
    if s != [] && less(s[0], y) {
      InsertTied(less, y, s[1..], x);
      WeakAt(less, s[0], x, y);
      var rest := Tied(less, s[1..], x);
      if Ties(less, y, x) {
        assert [] + rest == rest;
      } else {
        assert forall t: seq<T> :: [] + t == t;
      }
    } else {
      assert ([y] + s)[1..] == s;
    }
  }

  /** A stable sort: elements it does not rank keep their order. */
  lemma {:induction false} SortStable<T(!new)>(less: (T, T) -> bool, s: seq<T>, x: T)
    requires StrictWeak(less)
    ensures Tied(less, Sort(less, s), x) == Tied(less, s, x)
  {
    hide StrictWeak;
    if s != [] {
      SortStable(less, s[1..], x);
      InsertTied(less, s[0], Sort(less, s[1..]), x);
    }
  }

  lemma {:induction false} TiedElements<T>(less: (T, T) -> bool, s: seq<T>, x: T, y: T)
    ensures y in Tied(less, s, x) <==> y in s && Ties(less, y, x)
  {
    if s != [] {
      TiedElements(less, s[1..], x, y);
      assert s == [s[0]] + s[1..];
    }
  }

  /** Each of two such lists holds the other's head, and ranks nothing before it. */
  lemma HeadHeld<T(!new)>(less: (T, T) -> bool, a: seq<T>, b: seq<T>)
    requires StrictWeak(less) && Sorted(less, b) && a != []
    requires Tied(less, a, a[0]) == Tied(less, b, a[0])
    ensures b != [] && !less(a[0], b[0])
  {
    hide StrictWeak;
    WeakAt(less, a[0], a[0], a[0]);
    TiedElements(less, a, a[0], a[0]);
    TiedElements(less, b, a[0], a[0]);
  }

  /** Being sorted and keeping the order of what is not ranked leaves no choice: Sort is the one such list. */
  lemma {:induction false} StableUnique<T(!new)>(less: (T, T) -> bool, a: seq<T>, b: seq<T>)
    requires StrictWeak(less) && Sorted(less, a) && Sorted(less, b)
    requires forall x :: Tied(less, a, x) == Tied(less, b, x)
    ensures a == b
  {
    hide StrictWeak;
    if a != [] { HeadHeld(less, a, b); }
    if b != [] { HeadHeld(less, b, a); }
    if a != [] {
      WeakAt(less, a[0], a[0], a[0]);
      assert Tied(less, a, a[0])[0] == a[0] && Tied(less, b, a[0])[0] == b[0];
      forall x
        ensures Tied(less, a[1..], x) == Tied(less, b[1..], x)
      {
        TiedTail(less, a, b, x);
      }
      StableUnique(less, a[1..], b[1..]);
      assert a == [a[0]] + a[1..] && b == [b[0]] + b[1..];
    }
  }

  lemma TiedTail<T>(less: (T, T) -> bool, a: seq<T>, b: seq<T>, x: T)
    requires a != [] && b != [] && a[0] == b[0] && Tied(less, a, x) == Tied(less, b, x)
    ensures Tied(less, a[1..], x) == Tied(less, b[1..], x)
  {
    var k := if Ties(less, a[0], x) then 1 else 0;
    assert Tied(less, a[1..], x) == Tied(less, a, x)[k..];
    assert Tied(less, b[1..], x) == Tied(less, b, x)[k..];
  }

  ghost predicate Ascending<T>(less: (T, T) -> bool, s: seq<T>) {
    forall i, j | 0 <= i < j < |s| :: less(s[i], s[j])
  }

  ghost predicate Asymmetric<T(!new)>(less: (T, T) -> bool) {
    forall a, b :: less(a, b) ==> !less(b, a)
  }

  lemma LeastFirst<T>(less: (T, T) -> bool, a: seq<T>, x: T)
    requires Ascending(less, a) && x in a
    ensures a[0] == x || less(a[0], x)
  {
  }

  lemma TailElements<T(!new)>(less: (T, T) -> bool, a: seq<T>)
    requires Asymmetric(less) && Ascending(less, a) && a != []
    ensures Ascending(less, a[1..]) && forall x :: x in a[1..] <==> x in a && x != a[0]
  {
  }

  /** Two ascending lists of the same elements are the same list. */
  lemma {:induction false} AscendingUnique<T(!new)>(less: (T, T) -> bool, a: seq<T>, b: seq<T>)
    requires Asymmetric(less) && Ascending(less, a) && Ascending(less, b)
    requires forall x :: x in a <==> x in b
    ensures a == b
  {
    assert b != [] ==> b[0] in b;
    if a == [] {
      assert b == [];
    } else {
      assert a[0] in b && a[0] in a;
      assert b[0] in a;
      LeastFirst(less, a, b[0]);
      LeastFirst(less, b, a[0]);
      TailElements(less, a);
      TailElements(less, b);
      AscendingUnique(less, a[1..], b[1..]);
      assert a == [a[0]] + a[1..] && b == [b[0]] + b[1..];
    }
  }

  /** Sorting distinct elements by a total order leaves an ascending list. */
  lemma SortAscending<T(!new)>(less: (T, T) -> bool, s: seq<T>)
    requires StrictWeak(less) && NoDup(s)
    requires forall x, y :: less(x, y) || x == y || less(y, x)
    ensures Ascending(less, Sort(less, s))
  {
    SortSorted(less, s);
    SortNoDup(less, s);
  }

  lemma {:induction false} SortNoDup<T>(less: (T, T) -> bool, s: seq<T>)
    requires NoDup(s)
    ensures NoDup(Sort(less, s))
  {
    if s != [] {
      SortNoDup(less, s[1..]);
      SortElements(less, s[1..]);
      InsertKeepsNoDup(less, s[0], Sort(less, s[1..]));
    }
  }

  lemma {:induction false} InsertKeepsNoDup<T>(less: (T, T) -> bool, x: T, s: seq<T>)
    requires NoDup(s) && x !in s
    ensures NoDup(Insert(less, x, s))
  {
    if s != [] && less(s[0], x) {
      InsertKeepsNoDup(less, x, s[1..]);
      InsertElements(less, x, s[1..]);
      assert s[0] !in s[1..];
    }
  }
}
