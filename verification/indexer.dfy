/** Queries, results and the category filter. */
module Indexer {
  import opened Wrappers
  import opened Text
  import opened Sorting

  /** A category bucket; 0 is Other. Out-of-range numbers are allowed and kept apart. */
  type Category = int

  const CATEGORY_OTHER: Category := 0

  datatype Mode = ModeSearch | ModeLatest | ModeUnknown(n: int)

  datatype Query = Query(mode: Mode, text: string, categories: seq<Category>, minSeeders: int, limit: int, offset: int)

  /** A search hit. extra carries the source-specific fields and the registry's own marks. */
  datatype Result = Result(indexerID: string, id: string, title: string, infoHash: string, size: int, seeders: int,
                           category: Category, published: int, extra: map<string, string>)

  /** Category.String. */
  function TokenOf(c: Category): string {
    if c == 0 then "other" else if c == 1 then "audio" else if c == 2 then "video" else if c == 3 then "image"
    else if c == 4 then "text" else if c == 5 then "software" else if c == 6 then "data"
    else "category(" + ShowInt(c) + ")"
  }

  lemma TokenShape(c: Category)
    ensures TokenOf(c) != "" && ',' !in TokenOf(c)
    ensures TokenOf(c)[0] == 'c' <==> !(0 <= c <= 6)
  {
  }

  lemma TokenInjective(a: Category, b: Category)
    requires TokenOf(a) == TokenOf(b)
    ensures a == b
  {
    TokenShape(a);
    TokenShape(b);
    if !(0 <= a <= 6) {
      assert TokenOf(a)[9..|TokenOf(a)| - 1] == ShowInt(a);
      assert TokenOf(b)[9..|TokenOf(b)| - 1] == ShowInt(b);
      ShowIntInjective(a, b);
    }
  }

  /** The tokens of a filter, each once, in the order asked for. */
  function Tokens(cats: seq<Category>): (r: seq<string>)
    ensures forall t :: t in r <==> exists c :: c in cats && TokenOf(c) == t
    ensures NoDup(r)
  {
    if cats == [] then []
    else
      var last := cats[|cats| - 1];
      var before := cats[..|cats| - 1];
      assert cats == before + [last];
      if last in before then Tokens(before)
      else
        assert TokenOf(last) !in Tokens(before) by {
          if TokenOf(last) in Tokens(before) {
            var c :| c in before && TokenOf(c) == TokenOf(last);
            TokenInjective(c, last);
          }
        }
        Tokens(before) + [TokenOf(last)]
  }

  function KeyOfCategories(cats: seq<Category>): string {
    if cats == [] then "" else Join(Sort(Less, Tokens(cats)), ',')
  }

  /** categoryKey. */
  method CategoryKey(cats: seq<Category>) returns (key: string)
    ensures key == KeyOfCategories(cats)
  {
    if cats == [] { return ""; }
    var tokens: seq<string> := [];
    var seen: set<Category> := {};
    for i := 0 to |cats|
      invariant tokens == Tokens(cats[..i]) && seen == set c | c in cats[..i]
    {
      assert cats[..i + 1][..i] == cats[..i] && cats[..i + 1] == cats[..i] + [cats[i]];
      if cats[i] in seen { continue; }
      seen := seen + {cats[i]};
      tokens := tokens + [TokenOf(cats[i])];
    }
    assert cats[..|cats|] == cats;
    return Join(Sort(Less, tokens), ',');
  }

  lemma LessOrders()
    ensures StrictWeak(Less) && Asymmetric(Less) && forall a, b :: Less(a, b) || a == b || Less(b, a)
  {
    forall a: string ensures !Less(a, a) { LessIrreflexive(a); }
    forall a: string, b: string ensures Less(a, b) || a == b || Less(b, a) { LessTotal(a, b); }
    forall a: string, b: string, c: string | Less(a, b) && Less(b, c) ensures Less(a, c) { LessTransitive(a, b, c); }
    forall a: string, b: string, c: string | Less(a, c) ensures Less(a, b) || Less(b, c) {
      LessTotal(a, b);
      LessTotal(b, c);
      if Less(b, a) && !Less(b, c) {
        if Less(c, b) { LessTransitive(c, b, a); LessAsymmetric(a, c); } else { LessAsymmetric(a, c); }
      }
    }
    forall a: string, b: string | Less(a, b) ensures !Less(b, a) { LessAsymmetric(a, b); }
  }

  predicate SameCategories(a: seq<Category>, b: seq<Category>) {
    (forall c | c in a :: c in b) && (forall c | c in b :: c in a)
  }

  /** Two filters have one key exactly when they ask for the same set of categories. */
  lemma CategoryKeyIsSet(a: seq<Category>, b: seq<Category>)
    ensures KeyOfCategories(a) == KeyOfCategories(b) <==> SameCategories(a, b)
  {
    LessOrders();
    var ta, tb := Sort(Less, Tokens(a)), Sort(Less, Tokens(b));
    SortElements(Less, Tokens(a));
    SortElements(Less, Tokens(b));
    forall t | t in ta || t in tb
      ensures t != "" && ',' !in t
    {
      var c :| (c in a || c in b) && TokenOf(c) == t;
      TokenShape(c);
    }
    if KeyOfCategories(a) == KeyOfCategories(b) {
      assert KeyOfCategories(a) == Join(ta, ',') && KeyOfCategories(b) == Join(tb, ',');
      JoinInjective(ta, tb, ',');
      TokensTell(a, b);
    }
    if SameCategories(a, b) {
      assert forall t :: t in ta <==> t in tb;
      SortAscending(Less, Tokens(a));
      SortAscending(Less, Tokens(b));
      AscendingUnique(Less, ta, tb);
    }
  }

  lemma TokensTell(a: seq<Category>, b: seq<Category>)
    requires forall t :: t in Tokens(a) <==> t in Tokens(b)
    ensures SameCategories(a, b)
  {
    forall c | c in a || c in b
      ensures c in a && c in b
    {
      assert TokenOf(c) in Tokens(a) && TokenOf(c) in Tokens(b);
      var x :| x in a && TokenOf(x) == TokenOf(c);
      var y :| y in b && TokenOf(y) == TokenOf(c);
      TokenInjective(x, c);
      TokenInjective(y, c);
    }
  }

  // ----- filtering -----

  predicate Wanted(r: Result, want: seq<Category>) {
    r.category == CATEGORY_OTHER || r.category in want
  }

  function Filtered(results: seq<Result>, want: seq<Category>): seq<Result> {
    if want == [] then results
    else if results == [] then []
    else Filtered(results[..|results| - 1], want) +
         (if Wanted(results[|results| - 1], want) then [results[|results| - 1]] else [])
  }

  /** FilterByCategories. */
  method FilterByCategories(results: seq<Result>, want: seq<Category>) returns (out: seq<Result>)
    ensures out == Filtered(results, want)
  {
    if want == [] { return results; }
    out := [];
    for i := 0 to |results|
      invariant out == Filtered(results[..i], want)
    {
      assert results[..i + 1][..i] == results[..i];
      if Wanted(results[i], want) { out := out + [results[i]]; }
    }
    assert results[..|results|] == results;
  }

  /** The filter depends on the set of categories alone. */
  lemma {:induction false} FilterDependsOnSet(results: seq<Result>, a: seq<Category>, b: seq<Category>)
    requires SameCategories(a, b)
    ensures Filtered(results, a) == Filtered(results, b)
  {
    if a != [] { var c := a[0]; assert c in a; assert c in b; }
    if b != [] { var c := b[0]; assert c in b; assert c in a; }
    if a != [] && results != [] { FilterDependsOnSet(results[..|results| - 1], a, b); }
  }

  /** It keeps every unclassified result and every one of a category asked for, as often and in the order it came. */
  lemma {:induction false} FilterKeeps(results: seq<Result>, want: seq<Category>, r: Result, x: Result)
    ensures var kept := Filtered(results, want);
      if want == [] then kept == results
      else
        && multiset(kept)[r] == (if r.category == 0 || r.category in want then multiset(results)[r] else 0)
        && (r in kept && x in kept ==> (Ahead(kept, r, x) <==> Ahead(results, r, x)))
  {
    hide Ahead;
    if want != [] && results != [] {
      var before, last := results[..|results| - 1], results[|results| - 1];
      assert results == before + [last];
      FilterKeeps(before, want, r, x);
      FilterKeeps(before, want, x, r);
      AheadJoin(before, [last], r, x);
      AheadJoin(Filtered(before, want), [last], r, x);
      AheadIn(before, r, x);
      AheadIn(Filtered(before, want), r, x);
      NoneAhead(last, r, x);
      if !Wanted(last, want) { assert Filtered(results, want) == Filtered(before, want); }
    }
  }
}
