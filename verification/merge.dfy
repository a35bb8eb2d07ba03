/** Merging one fan-out's answers: one row per item, the best copy of each, in the mode's order. */
module Merge {
  import opened Wrappers
  import opened Text
  import opened Sorting
  import opened Indexer

  const KEY_SOURCES: string := "tortui.sources"
  const KEY_CACHE_HIT: string := "tortui.cacheHit"
  const KEY_SEEDERS_UNKNOWN: string := "tortui.seeders_unknown"

  // ----- identity -----

  function TrimLeft(s: string): string {
    if s != "" && IsSpace(s[0]) then TrimLeft(s[1..]) else s
  }

  function TrimRight(s: string): string {
    if s != "" && IsSpace(s[|s| - 1]) then TrimRight(s[..|s| - 1]) else s
  }

  predicate IsWord(c: char) {
    'a' <= c <= 'z' || 'A' <= c <= 'Z' || IsDigit(c)
  }

  /** The runs of letters and digits of s, lowercased, the first of them continuing run. */
  function Words(s: string, run: string): seq<string> {
    var done := if run == "" then [] else [run];
    if s == "" then done
    else if IsWord(s[0]) then Words(s[1..], run + [LowerChar(s[0])])
    else done + Words(s[1..], "")
  }

  /** normaliseTitle. */
  function NormaliseTitle(s: string): string {
    Join(Words(s, ""), ' ')
  }

  function HashOf(r: Result): string {
    Lower(TrimRight(TrimLeft(r.infoHash)))
  }

  /** dedupKey: what a result is merged on, if anything. */
  function DedupKey(r: Result): Option<string> {
    if HashOf(r) != "" then Some("infohash:" + HashOf(r))
    else if NormaliseTitle(r.title) != "" then Some("title:" + NormaliseTitle(r.title) + "|" + ShowInt(r.size))
    else None
  }

  lemma {:induction false} WordsChars(s: string, run: string)
    requires forall i | 0 <= i < |run| :: IsWord(run[i])
    ensures forall w | w in Words(s, run) :: w != "" && forall i | 0 <= i < |w| :: IsWord(w[i])
  {
    if s != "" {
      if IsWord(s[0]) { WordsChars(s[1..], run + [LowerChar(s[0])]); } else { WordsChars(s[1..], ""); }
    }
  }

  lemma {:induction false} JoinChars(parts: seq<string>)
    requires forall w | w in parts :: forall i | 0 <= i < |w| :: IsWord(w[i])
    ensures '|' !in Join(parts, ' ')
  {
    if parts != [] {
      assert parts[0] in parts;
      assert forall w | w in parts[1..] :: w in parts;
      JoinChars(parts[1..]);
    }
  }

  lemma TitleHasNoBar(s: string)
    ensures '|' !in NormaliseTitle(s)
  {
    WordsChars(s, "");
    JoinChars(Words(s, ""));
  }

  lemma SplitAtBar(a: string, b: string, x: string, y: string)
    requires '|' !in a && '|' !in b && a + "|" + x == b + "|" + y
    ensures a == b && x == y
  {
    var s := a + "|" + x;
    assert s[|a|] == '|' && s[|b|] == '|';
    assert forall i | 0 <= i < |a| :: s[i] == a[i];
    assert forall i | 0 <= i < |b| :: s[i] == b[i];
    assert |a| == |b|;
    assert a == s[..|a|] && b == s[..|b|];
    assert x == s[|a| + 1..] && y == s[|b| + 1..];
  }

  // ----- what identities are made of -----

  lemma {:induction false} TrimLeftExact(s: string) returns (pre: string)
    ensures s == pre + TrimLeft(s) && Blank(pre) && (TrimLeft(s) != "" ==> !IsSpace(TrimLeft(s)[0]))
  {
    if s != "" && IsSpace(s[0]) {
      pre := TrimLeftExact(s[1..]);
      pre := [s[0]] + pre;
    } else {
      pre := "";
    }
  }

  lemma {:induction false} TrimRightExact(s: string) returns (post: string)
    ensures s == TrimRight(s) + post && Blank(post)
    ensures TrimRight(s) != "" ==> !IsSpace(TrimRight(s)[|TrimRight(s)| - 1]) && TrimRight(s)[0] == s[0]
  {
    if s != "" && IsSpace(s[|s| - 1]) {
      post := TrimRightExact(s[..|s| - 1]);
      post := post + [s[|s| - 1]];
    } else {
      post := "";
    }
  }

  /** The infohash matched on is the one given without the space around it, in lower case. */
  lemma HashExact(r: Result) returns (pre: string, hash: string, post: string)
    ensures r.infoHash == pre + hash + post && Blank(pre) && Blank(post) && HashOf(r) == Lower(hash)
    ensures hash != "" ==> !IsSpace(hash[0]) && !IsSpace(hash[|hash| - 1])
  {
    pre := TrimLeftExact(r.infoHash);
    post := TrimRightExact(TrimLeft(r.infoHash));
    hash := TrimRight(TrimLeft(r.infoHash));
  }

  lemma {:induction false} WordsOfWord(s: string, run: string)
    requires forall i | 0 <= i < |s| :: IsWord(s[i])
    ensures Words(s, run) == if run + Lower(s) == "" then [] else [run + Lower(s)]
  {
    if s != "" {
      WordsOfWord(s[1..], run + [LowerChar(s[0])]);
      assert run + [LowerChar(s[0])] + Lower(s[1..]) == run + Lower(s);
    } else {
      assert run + Lower(s) == run;
    }
  }

  lemma {:induction false} WordsSplit(a: string, c: char, b: string, run: string)
    requires !IsWord(c)
    ensures Words(a + [c] + b, run) == Words(a, run) + Words(b, "")
  {
    var s := a + [c] + b;
    if a == "" {
      assert s[1..] == b;
    } else {
      assert s[1..] == a[1..] + [c] + b;
      if IsWord(a[0]) { WordsSplit(a[1..], c, b, run + [LowerChar(a[0])]); } else { WordsSplit(a[1..], c, b, ""); }
    }
  }

  lemma {:induction false} JoinParts(a: seq<string>, b: seq<string>)
    ensures Join(a + b, ' ') == if a == [] then Join(b, ' ') else if b == [] then Join(a, ' ')
                                else Join(a, ' ') + " " + Join(b, ' ')
  {
    if a == [] {
      assert a + b == b;
    } else if b == [] {
      assert a + b == a;
    } else {
      assert (a + b)[1..] == a[1..] + b;
      JoinParts(a[1..], b);
    }
  }

  lemma JoinBlank(parts: seq<string>)
    requires forall w | w in parts :: w != ""
    ensures Join(parts, ' ') == "" <==> parts == []
  {
    if parts != [] { assert parts[0] in parts; }
  }

  /** What a title is matched on: its words lowercased, whatever stands between them being one space. */
  lemma TitleRules(a: string, c: char, b: string)
    ensures (forall i | 0 <= i < |a| :: IsWord(a[i])) ==> NormaliseTitle(a) == Lower(a)
    ensures !IsWord(c) ==>
              var (x, y) := (NormaliseTitle(a), NormaliseTitle(b));
              NormaliseTitle(a + [c] + b) == if x == "" then y else if y == "" then x else x + " " + y
  {
    if forall i | 0 <= i < |a| :: IsWord(a[i]) { WordsOfWord(a, ""); }
    if !IsWord(c) {
      WordsSplit(a, c, b, "");
      JoinParts(Words(a, ""), Words(b, ""));
      WordsChars(a, "");
      WordsChars(b, "");
      JoinBlank(Words(a, ""));
      JoinBlank(Words(b, ""));
    }
  }

  /** Two results are one item exactly when their infohashes match, or neither has one and title and size do. */
  lemma SameItem(a: Result, b: Result)
    ensures (DedupKey(a).Some? && DedupKey(a) == DedupKey(b)) <==>
      (if HashOf(a) != "" || HashOf(b) != "" then HashOf(a) == HashOf(b)
       else NormaliseTitle(a.title) != "" && NormaliseTitle(a.title) == NormaliseTitle(b.title) && a.size == b.size)
  {
    TitleHasNoBar(a.title);
    TitleHasNoBar(b.title);
    if DedupKey(a).Some? && DedupKey(a) == DedupKey(b) {
      var k := DedupKey(a).value;
      if HashOf(a) != "" {
        assert k[0] == 'i' && k[9..] == HashOf(a);
        assert k[9..] == HashOf(b);
      } else {
        assert k[0] == 't';
        assert k[6..] == NormaliseTitle(a.title) + "|" + ShowInt(a.size);
        assert k[6..] == NormaliseTitle(b.title) + "|" + ShowInt(b.size);
        SplitAtBar(NormaliseTitle(a.title), NormaliseTitle(b.title), ShowInt(a.size), ShowInt(b.size));
        ShowIntInjective(a.size, b.size);
      }
    }
  }

  // ----- copies and groups -----

  /** One source's copy of a result. */
  datatype Copy = Copy(src: string, res: Result, cached: bool)

  /** The copies of one item, in the order met. */
  datatype Group = Group(key: string, copies: seq<Copy>)

  predicate SeedersUnknown(r: Result) {
    KEY_SEEDERS_UNKNOWN in r.extra && r.extra[KEY_SEEDERS_UNKNOWN] != ""
  }

  /** a replaces b as the surviving copy. */
  predicate Better(a: Result, b: Result) {
    a.seeders > b.seeders || (a.seeders == b.seeders && SeedersUnknown(b) && !SeedersUnknown(a))
  }

  /** How many of the copies have nothing to match on. */
  function Unmatchable(cs: seq<Copy>): nat {
    if cs == [] then 0 else Unmatchable(cs[..|cs| - 1]) + (if DedupKey(cs[|cs| - 1].res).None? then 1 else 0)
  }

  /** The key copy i is filed under: its own, or one nothing else can have. */
  function KeyAt(cs: seq<Copy>, i: nat): string
    requires i < |cs|
  {
    var k := DedupKey(cs[i].res);
    if k.Some? then k.value else "unmatchable:" + Show(Unmatchable(cs[..i]) + 1)
  }

  /** The copies of cs filed under key, in order. */
  function Matching(cs: seq<Copy>, key: string): seq<Copy> {
    if cs == [] then []
    else Matching(cs[..|cs| - 1], key) + (if KeyAt(cs, |cs| - 1) == key then [cs[|cs| - 1]] else [])
  }

  /** Every key of cs once, where first met. */
  function Keys(cs: seq<Copy>): seq<string> {
    if cs == [] then []
    else
      var before, k := Keys(cs[..|cs| - 1]), KeyAt(cs, |cs| - 1);
      if k in before then before else before + [k]
  }

  /** The surviving copy: a later one only when it is strictly better. */
  function Best(cs: seq<Copy>): Copy
    requires cs != []
  {
    if |cs| == 1 then cs[0]
    else
      var b, last := Best(cs[..|cs| - 1]), cs[|cs| - 1];
      if Better(last.res, b.res) then last else b
  }

  /** Each contributing source once, in the order met. */
  function SourcesOf(cs: seq<Copy>): seq<string> {
    if cs == [] then []
    else
      var before, id := SourcesOf(cs[..|cs| - 1]), cs[|cs| - 1].src;
      if id in before then before else before + [id]
  }

  /** One merged row: the best copy, marked with its sources and whether that copy came from the cache. */
  function Row(cs: seq<Copy>): Result
    requires cs != []
  {
    var b := Best(cs);
    b.res.(extra := b.res.extra[KEY_SOURCES := Join(SourcesOf(cs), ',')]
                               [KEY_CACHE_HIT := if b.cached then "true" else "false"])
  }

  lemma {:induction false} MatchingNonempty(cs: seq<Copy>, key: string)
    ensures key in Keys(cs) <==> Matching(cs, key) != []
    ensures forall c | c in Matching(cs, key) :: c in cs
    ensures NoDup(Keys(cs))
  {
    if cs != [] {
      MatchingNonempty(cs[..|cs| - 1], key);
      assert cs == cs[..|cs| - 1] + [cs[|cs| - 1]];
    }
  }

  /** The rows of keys, in their order. */
  function Rows(cs: seq<Copy>, keys: seq<string>): seq<Result>
    requires forall k | k in keys :: Matching(cs, k) != []
  {
    seq(|keys|, i requires 0 <= i < |keys| => assert keys[i] in keys; Row(Matching(cs, keys[i])))
  }

  lemma KeysMatch(cs: seq<Copy>)
    ensures forall k | k in Keys(cs) :: Matching(cs, k) != []
  {
  }

  /** Whichever key comes first in Keys was met first. */
  lemma {:induction false} KeysFirstMet(cs: seq<Copy>, i: nat, j: nat) returns (n: nat)
    requires i < j < |Keys(cs)|
    ensures n < |cs| && KeyAt(cs, n) == Keys(cs)[i]
    ensures forall m | 0 <= m <= n :: KeyAt(cs, m) != Keys(cs)[j]
  {
    var before, last := cs[..|cs| - 1], |cs| - 1;
    forall m | 0 <= m < last
      ensures KeyAt(before, m) == KeyAt(cs, m)
    {
      assert before[..m] == cs[..m];
    }
    if j < |Keys(before)| {
      n := KeysFirstMet(before, i, j);
    } else {
      n := KeyMet(before, i);
      forall m | 0 <= m <= n
        ensures KeyAt(cs, m) != Keys(cs)[j]
      {
        KeyListed(before, m);
      }
    }
  }

  /** Every key listed is some copy's, and every copy's is listed. */
  lemma {:induction false} KeyMet(cs: seq<Copy>, i: nat) returns (n: nat)
    requires i < |Keys(cs)|
    ensures n < |cs| && KeyAt(cs, n) == Keys(cs)[i]
  {
    var before, last := cs[..|cs| - 1], |cs| - 1;
    if i < |Keys(before)| {
      n := KeyMet(before, i);
      assert before[..n] == cs[..n];
    } else {
      n := last;
    }
  }

  lemma {:induction false} KeyListed(cs: seq<Copy>, n: nat)
    requires n < |cs|
    ensures KeyAt(cs, n) in Keys(cs)
  {
    var before, last := cs[..|cs| - 1], |cs| - 1;
    if n < last {
      KeyListed(before, n);
      assert before[..n] == cs[..n];
    }
  }

  // ----- order -----

  /** sortResults' comparison. */
  predicate Before(mode: Mode, a: Result, b: Result) {
    if mode.ModeLatest? && a.published != b.published then a.published > b.published
    else if a.seeders != b.seeders then a.seeders > b.seeders
    else if a.published != b.published then a.published > b.published
    else if a.title != b.title then Less(a.title, b.title)
    else if a.indexerID != b.indexerID then Less(a.indexerID, b.indexerID)
    else Less(a.id, b.id)
  }

  lemma BeforeTransitive(mode: Mode, a: Result, b: Result, c: Result)
    requires Before(mode, a, b) && Before(mode, b, c)
    ensures Before(mode, a, c)
  {
    LessIrreflexive(a.title);
    LessIrreflexive(a.indexerID);
    if Less(a.title, b.title) && Less(b.title, c.title) {
      LessTransitive(a.title, b.title, c.title);
      LessAsymmetric(a.title, b.title);
    }
    if Less(a.indexerID, b.indexerID) && Less(b.indexerID, c.indexerID) {
      LessTransitive(a.indexerID, b.indexerID, c.indexerID);
      LessAsymmetric(a.indexerID, b.indexerID);
    }
    if Less(a.id, b.id) && Less(b.id, c.id) { LessTransitive(a.id, b.id, c.id); }
  }

  predicate SamePlace(a: Result, b: Result) {
    a.seeders == b.seeders && a.published == b.published && a.title == b.title && a.indexerID == b.indexerID &&
      a.id == b.id
  }

  lemma BeforeTotal(mode: Mode, a: Result, b: Result)
    ensures !Before(mode, a, a)
    ensures Before(mode, a, b) || SamePlace(a, b) || Before(mode, b, a)
  {
    LessIrreflexive(a.id);
    LessTotal(a.title, b.title);
    LessTotal(a.indexerID, b.indexerID);
    LessTotal(a.id, b.id);
  }

  /** The mode's comparison, as a sort takes it. */
  function Order(mode: Mode): (Result, Result) -> bool {
    (a: Result, b: Result) => Before(mode, a, b)
  }

  lemma BeforeOrders(mode: Mode)
    ensures StrictWeak(Order(mode))
  {
    forall a: Result ensures !Before(mode, a, a) { BeforeTotal(mode, a, a); }
    forall a: Result, b: Result, c: Result | Before(mode, a, b) && Before(mode, b, c)
      ensures Before(mode, a, c)
    {
      BeforeTransitive(mode, a, b, c);
    }
    forall a: Result, b: Result, c: Result | Before(mode, a, c)
      ensures Before(mode, a, b) || Before(mode, b, c)
    {
      BeforeTotal(mode, a, b);
      if Before(mode, b, a) { BeforeTransitive(mode, b, a, c); }
    }
  }

  function SortResults(mode: Mode, rs: seq<Result>): seq<Result> {
    Sort(Order(mode), rs)
  }

  // ----- the merge -----

  /** What one fan-out returns for its copies. */
  function Merged(mode: Mode, cs: seq<Copy>): seq<Result> {
    KeysMatch(cs);
    SortResults(mode, Rows(cs, Keys(cs)))
  }

  function CopiesOf(id: string, group: seq<Result>, cached: bool): seq<Copy> {
    seq(|group|, i requires 0 <= i < |group| => Copy(id, group[i], cached))
  }

  /** Every copy of a fan-out, source by source in selection order. */
  function AllCopies(ids: seq<string>, groups: seq<seq<Result>>, hit: map<string, bool>): seq<Copy>
    requires |ids| == |groups|
  {
    if ids == [] then []
    else
      var n := |ids| - 1;
      AllCopies(ids[..n], groups[..n], hit) + CopiesOf(ids[n], groups[n], ids[n] in hit && hit[ids[n]])
  }

  /** A row under construction. */
  datatype Building = Building(res: Result, sources: seq<string>, fromCache: bool)

  /** The row under construction for one item's copies. */
  function BuildingOf(m: seq<Copy>): Building
    requires m != []
  {
    Building(Best(m).res, SourcesOf(m), Best(m).cached)
  }

  /** A row under construction with one more copy. */
  function JoinBuilding(b: Building, c: Copy): Building {
    var sources := if c.src in b.sources then b.sources else b.sources + [c.src];
    if Better(c.res, b.res) then Building(c.res, sources, c.cached) else b.(sources := sources)
  }

  lemma BuildingFirst(c: Copy)
    ensures BuildingOf([c]) == Building(c.res, [c.src], c.cached)
  {
    assert [c][..0] == [] && SourcesOf([]) == [] && [] + [c.src] == [c.src];
  }

  lemma BuildingSnoc(m: seq<Copy>, c: Copy)
    requires m != []
    ensures BuildingOf(m + [c]) == JoinBuilding(BuildingOf(m), c)
  {
  }

  lemma Snoc(cs: seq<Copy>, c: Copy)
    ensures var k := KeyAt(cs + [c], |cs|);
      && Keys(cs + [c]) == (if k in Keys(cs) then Keys(cs) else Keys(cs) + [k])
      && Unmatchable(cs + [c]) == Unmatchable(cs) + (if DedupKey(c.res).None? then 1 else 0)
    ensures forall key ::
      Matching(cs + [c], key) == Matching(cs, key) + (if KeyAt(cs + [c], |cs|) == key then [c] else [])
  {
  }

  /** The source's table: rows in the order their keys were first met, and where each key's row is. */
  ghost predicate Built(cs: seq<Copy>, order: seq<Building>, index: map<string, nat>, unnamed: nat) {
    && unnamed == Unmatchable(cs)
    && |order| == |Keys(cs)|
    && (forall k :: k in index <==> k in Keys(cs))
    && (forall k | k in index :: index[k] < |order| && Keys(cs)[index[k]] == k)
    && (forall i | 0 <= i < |order| :: RowAt(cs, order, i))
  }

  ghost predicate RowAt(cs: seq<Copy>, order: seq<Building>, i: nat)
    requires i < |order| == |Keys(cs)|
  {
    Matching(cs, Keys(cs)[i]) != [] && order[i] == BuildingOf(Matching(cs, Keys(cs)[i]))
  }

  /** Rows of other items are as they were. */
  lemma OtherRows(cs: seq<Copy>, c: Copy, order: seq<Building>, order': seq<Building>)
    requires |order| == |Keys(cs)| && |order'| == |Keys(cs + [c])|
    requires forall i | 0 <= i < |order| :: RowAt(cs, order, i)
    requires forall i | 0 <= i < |order| && Keys(cs)[i] != KeyAt(cs + [c], |cs|) :: order'[i] == order[i]
    requires forall i | 0 <= i < |order'| && Keys(cs + [c])[i] == KeyAt(cs + [c], |cs|) :: RowAt(cs + [c], order', i)
    ensures forall i | 0 <= i < |order'| :: RowAt(cs + [c], order', i)
  {
    Snoc(cs, c);
    forall i | 0 <= i < |order'|
      ensures RowAt(cs + [c], order', i)
    {
      var k := Keys(cs + [c])[i];
      if k != KeyAt(cs + [c], |cs|) {
        assert RowAt(cs, order, i);
        assert Matching(cs, k) + [] == Matching(cs, k);
      }
    }
  }

  /** A copy of an item not met before opens a row. */
  lemma OpensRow(cs: seq<Copy>, c: Copy, order: seq<Building>, index: map<string, nat>, unnamed: nat,
      order': seq<Building>)
    requires Built(cs, order, index, unnamed) && KeyAt(cs + [c], |cs|) !in index
    requires order' == order + [Building(c.res, [c.src], c.cached)]
    ensures Built(cs + [c], order', index[KeyAt(cs + [c], |cs|) := |order|],
                  unnamed + if DedupKey(c.res).None? then 1 else 0)
  {
    hide RowAt, Matching, DedupKey, KeyAt;
    Snoc(cs, c);
    assert Keys(cs + [c]) == Keys(cs) + [KeyAt(cs + [c], |cs|)];
    OpensRows(cs, c, order, order');
  }

  lemma OpensRows(cs: seq<Copy>, c: Copy, order: seq<Building>, order': seq<Building>)
    requires |order| == |Keys(cs)| && KeyAt(cs + [c], |cs|) !in Keys(cs)
    requires forall i | 0 <= i < |order| :: RowAt(cs, order, i)
    requires order' == order + [Building(c.res, [c.src], c.cached)]
    ensures |order'| == |Keys(cs + [c])| && forall i | 0 <= i < |order'| :: RowAt(cs + [c], order', i)
  {
    hide DedupKey, KeyAt;
    Snoc(cs, c);
    var key := KeyAt(cs + [c], |cs|);
    MatchingNonempty(cs, key);
    BuildingFirst(c);
    assert Keys(cs + [c]) == Keys(cs) + [key];
    assert Matching(cs + [c], key) == [] + [c] == [c];
    assert RowAt(cs + [c], order', |order|);
    assert forall j | 0 <= j < |order'| && Keys(cs + [c])[j] == key :: j == |order|;
    OtherRows(cs, c, order, order');
  }

  /** A further copy of an item goes into its row. */
  lemma JoinsRow(cs: seq<Copy>, c: Copy, order: seq<Building>, index: map<string, nat>, unnamed: nat, i: nat)
    requires Built(cs, order, index, unnamed)
    requires KeyAt(cs + [c], |cs|) in index && i == index[KeyAt(cs + [c], |cs|)]
    ensures Built(cs + [c], order[i := JoinBuilding(order[i], c)], index,
                  unnamed + if DedupKey(c.res).None? then 1 else 0)
  {
    hide RowAt, Matching, DedupKey, KeyAt, JoinBuilding;
    Snoc(cs, c);
    assert Keys(cs + [c]) == Keys(cs);
    JoinsRows(cs, c, order, i);
  }

  lemma JoinsRows(cs: seq<Copy>, c: Copy, order: seq<Building>, i: nat)
    requires |order| == |Keys(cs)| && i < |order| && Keys(cs)[i] == KeyAt(cs + [c], |cs|)
    requires forall j | 0 <= j < |order| :: RowAt(cs, order, j)
    ensures var order' := order[i := JoinBuilding(order[i], c)];
      |order'| == |Keys(cs + [c])| && forall j | 0 <= j < |order'| :: RowAt(cs + [c], order', j)
  {
    hide DedupKey, KeyAt, JoinBuilding, BuildingOf;
    Snoc(cs, c);
    var key := KeyAt(cs + [c], |cs|);
    assert RowAt(cs, order, i);
    BuildingSnoc(Matching(cs, key), c);
    var order' := order[i := JoinBuilding(order[i], c)];
    MatchingNonempty(cs, key);
    assert Keys(cs + [c]) == Keys(cs);
    assert RowAt(cs + [c], order', i);
    assert forall j | 0 <= j < |order'| && Keys(cs)[j] == key :: j == i;
    OtherRows(cs, c, order, order');
  }

  /** One turn of mergeResults' inner loop. */
  method Absorb(ghost cs: seq<Copy>, id: string, res: Result, cached: bool, order: seq<Building>,
      index: map<string, nat>, unnamed: nat)
    returns (order': seq<Building>, index': map<string, nat>, unnamed': nat)
    requires Built(cs, order, index, unnamed)
    ensures Built(cs + [Copy(id, res, cached)], order', index', unnamed')
  {
    ghost var c := Copy(id, res, cached);
    assert (cs + [c])[..|cs|] == cs;
    order', index', unnamed' := order, index, unnamed;
    var key;
    if DedupKey(res).Some? {
      key := DedupKey(res).value;
    } else {
      unnamed' := unnamed + 1;
      key := "unmatchable:" + Show(unnamed');
    }
    if key !in index {
      index' := index[key := |order|];
      order' := order + [Building(res, [id], cached)];
      OpensRow(cs, c, order, index, unnamed, order');
      return;
    }
    JoinsRow(cs, c, order, index, unnamed, index[key]);
    var e := order[index[key]];
    if id !in e.sources { e := e.(sources := e.sources + [id]); }
    if res.seeders > e.res.seeders || (res.seeders == e.res.seeders && SeedersUnknown(e.res) && !SeedersUnknown(res)) {
      e := e.(res := res, fromCache := cached);
    }
    order' := order[index[key] := e];
  }

  /** The rows finished: each marked with its sources and whether it came from the cache. */
  method Finish(ghost cs: seq<Copy>, order: seq<Building>, ghost index: map<string, nat>, ghost unnamed: nat)
      returns (rows: seq<Result>)
    requires Built(cs, order, index, unnamed) && forall k | k in Keys(cs) :: Matching(cs, k) != []
    ensures rows == Rows(cs, Keys(cs))
  {
    rows := [];
    for i := 0 to |order|
      invariant |rows| == i && forall j | 0 <= j < i :: rows[j] == Rows(cs, Keys(cs))[j]
    {
      var b := order[i];
      assert RowAt(cs, order, i);
      var extra := b.res.extra[KEY_SOURCES := Join(b.sources, ',')];
      rows := rows + [b.res.(extra := extra[KEY_CACHE_HIT := if b.fromCache then "true" else "false"])];
    }
  }

  /** mergeResults' inner loop: one source's group. */
  method AbsorbGroup(ghost cs: seq<Copy>, id: string, group: seq<Result>, cached: bool, order: seq<Building>,
      index: map<string, nat>, unnamed: nat)
    returns (order': seq<Building>, index': map<string, nat>, unnamed': nat)
    requires Built(cs, order, index, unnamed)
    ensures Built(cs + CopiesOf(id, group, cached), order', index', unnamed')
  {
    hide Built;
    order', index', unnamed' := order, index, unnamed;
    ghost var more := CopiesOf(id, group, cached);
    assert cs + more[..0] == cs;
    for j := 0 to |group|
      invariant Built(cs + more[..j], order', index', unnamed')
    {
      order', index', unnamed' := Absorb(cs + more[..j], id, group[j], cached, order', index', unnamed');
      assert cs + more[..j + 1] == cs + more[..j] + [more[j]];
    }
    assert more[..|group|] == more;
  }

  /** mergeResults. */
  method MergeResults(mode: Mode, ids: seq<string>, groups: seq<seq<Result>>, hit: map<string, bool>)
      returns (out: seq<Result>)
    requires |ids| == |groups|
    ensures out == Merged(mode, AllCopies(ids, groups, hit))
  {
    var order: seq<Building> := [];
    var index: map<string, nat> := map[];
    var unnamed: nat := 0;
    for i := 0 to |groups|
      invariant Built(AllCopies(ids[..i], groups[..i], hit), order, index, unnamed)
    {
      var cached := ids[i] in hit && hit[ids[i]];
      order, index, unnamed :=
        AbsorbGroup(AllCopies(ids[..i], groups[..i], hit), ids[i], groups[i], cached, order, index, unnamed);
      assert ids[..i + 1][..i] == ids[..i] && groups[..i + 1][..i] == groups[..i];
    }
    assert ids[..|ids|] == ids && groups[..|groups|] == groups;
    KeysMatch(AllCopies(ids, groups, hit));
    var rows := Finish(AllCopies(ids, groups, hit), order, index, unnamed);
    out := SortResults(mode, rows);
  }

  // ----- what a merge is -----

  /** The surviving copy is the first maximum: none beats it, and it beats every copy met before it. */
  lemma {:induction false} BestIsFirstMax(cs: seq<Copy>) returns (i: nat)
    requires cs != []
    ensures i < |cs| && Best(cs) == cs[i]
    ensures forall j | 0 <= j < |cs| :: !Better(cs[j].res, cs[i].res)
    ensures forall j | 0 <= j < i :: Better(cs[i].res, cs[j].res)
  {
    if |cs| == 1 {
      i := 0;
    } else {
      i := BestIsFirstMax(cs[..|cs| - 1]);
      if Better(cs[|cs| - 1].res, cs[i].res) { i := |cs| - 1; }
    }
  }

  // ----- on the fields -----

  /** The source knew how many seed it: it did not say the count is a placeholder. */
  predicate Known(r: Result) {
    "tortui.seeders_unknown" in r.extra ==> r.extra["tortui.seeders_unknown"] == ""
  }

  /**
   A row is the copy with the most seeders, of those one whose count is known if any is, and of
   the rest the first met; it is marked with every source and whether that copy was cached.
   */
  lemma RowExact(m: seq<Copy>) returns (i: nat)
    requires m != []
    ensures i < |m| && Row(m) == m[i].res.(extra := Row(m).extra)
    ensures forall j | 0 <= j < |m| :: m[j].res.seeders <= m[i].res.seeders
    ensures forall j | 0 <= j < |m| && m[j].res.seeders == m[i].res.seeders && Known(m[j].res) :: Known(m[i].res)
    ensures forall j | 0 <= j < i && m[j].res.seeders == m[i].res.seeders :: !Known(m[j].res) && Known(m[i].res)
    ensures var x := Row(m).extra;
      && "tortui.sources" in x && x["tortui.sources"] == Join(SourcesOf(m), ',')
      && "tortui.cacheHit" in x && x["tortui.cacheHit"] == (if m[i].cached then "true" else "false")
      && x - {"tortui.sources", "tortui.cacheHit"} == m[i].res.extra - {"tortui.sources", "tortui.cacheHit"}
  {
    i := BestIsFirstMax(m);
  }

  /** Every row of the output is so made of the copies of one item. */
  lemma MergedRow(mode: Mode, cs: seq<Copy>, n: nat) returns (key: string, i: nat)
    requires n < |Merged(mode, cs)|
    ensures key in Keys(cs) && var m, r := Matching(cs, key), Merged(mode, cs)[n];
      && i < |m| && r == m[i].res.(extra := r.extra)
      && (forall j | 0 <= j < |m| :: m[j].res.seeders <= r.seeders)
      && (forall j | 0 <= j < |m| && m[j].res.seeders == r.seeders && Known(m[j].res) :: Known(m[i].res))
      && (forall j | 0 <= j < i && m[j].res.seeders == r.seeders :: !Known(m[j].res) && Known(m[i].res))
  {
    hide KeyAt, Best, Join;
    KeysMatch(cs);
    var rows := Rows(cs, Keys(cs));
    SortElements(Order(mode), rows);
    assert Merged(mode, cs)[n] in rows;
    var k :| 0 <= k < |rows| && rows[k] == Merged(mode, cs)[n];
    key := Keys(cs)[k];
    i := RowExact(Matching(cs, key));
  }

  /** Nothing before r in the order of their text fields: title, then indexer id, then result id. */
  predicate TextsInOrder(a: Result, b: Result) {
    && (a.title == b.title || Less(a.title, b.title))
    && (a.title == b.title ==> a.indexerID == b.indexerID || Less(a.indexerID, b.indexerID))
    && (a.title == b.title && a.indexerID == b.indexerID ==> a.id == b.id || Less(a.id, b.id))
  }

  /** Of two rows of the output, the earlier has more seeders (in latest mode: was published later), and so on. */
  lemma OutputOrder(mode: Mode, cs: seq<Copy>, i: nat, j: nat)
    requires i < j < |Merged(mode, cs)|
    ensures var a, b := Merged(mode, cs)[i], Merged(mode, cs)[j];
      && (mode == ModeLatest ==>
            a.published >= b.published && (a.published == b.published ==> a.seeders >= b.seeders))
      && (mode != ModeLatest ==>
            a.seeders >= b.seeders && (a.seeders == b.seeders ==> a.published >= b.published))
      && (a.seeders == b.seeders && a.published == b.published ==> TextsInOrder(a, b))
  {
    hide KeyAt, Best, Join, Row, Less, Merged;
    MergedExact(mode, cs);
    var a, b := Merged(mode, cs)[i], Merged(mode, cs)[j];
    BeforeTotal(mode, a, b);
  }

  /** A row names its sources in the order their first copies were met. */
  lemma {:induction false} SourcesFirstMet(cs: seq<Copy>, i: nat, j: nat) returns (n: nat)
    requires i < j < |SourcesOf(cs)|
    ensures n < |cs| && cs[n].src == SourcesOf(cs)[i]
    ensures forall m | 0 <= m <= n :: cs[m].src != SourcesOf(cs)[j]
  {
    var before, last := cs[..|cs| - 1], |cs| - 1;
    SourcesExact(before);
    if j < |SourcesOf(before)| {
      n := SourcesFirstMet(before, i, j);
    } else {
      assert SourcesOf(before)[i] in SourcesOf(before);
      n :| 0 <= n < |before| && before[n].src == SourcesOf(before)[i];
      forall m | 0 <= m <= n
        ensures cs[m].src != SourcesOf(cs)[j]
      {
        assert before[m].src in SourcesOf(before);
      }
    }
  }

  function Total(groups: seq<seq<Result>>): nat {
    if groups == [] then 0 else Total(groups[..|groups| - 1]) + |groups[|groups| - 1]|
  }

  /** The copies of a fan-out are its answers, source by source in the order selected, none missing. */
  lemma {:induction false} AllCopiesAt(ids: seq<string>, groups: seq<seq<Result>>, hit: map<string, bool>, g: nat,
      n: nat)
    requires |ids| == |groups| && g < |ids| && n < |groups[g]|
    ensures |AllCopies(ids, groups, hit)| == Total(groups) && Total(groups[..g]) + n < Total(groups)
    ensures AllCopies(ids, groups, hit)[Total(groups[..g]) + n] ==
            Copy(ids[g], groups[g][n], ids[g] in hit && hit[ids[g]])
  {
    var last := |ids| - 1;
    AllCopiesLength(ids[..last], groups[..last], hit);
    if g < last {
      AllCopiesAt(ids[..last], groups[..last], hit, g, n);
      assert groups[..last][..g] == groups[..g];
    }
  }

  lemma {:induction false} AllCopiesLength(ids: seq<string>, groups: seq<seq<Result>>, hit: map<string, bool>)
    requires |ids| == |groups|
    ensures |AllCopies(ids, groups, hit)| == Total(groups)
  {
    if ids != [] { AllCopiesLength(ids[..|ids| - 1], groups[..|ids| - 1], hit); }
  }

  /** A row names each contributing source once, and only those. */
  lemma {:induction false} SourcesExact(cs: seq<Copy>)
    ensures NoDup(SourcesOf(cs))
    ensures forall id :: id in SourcesOf(cs) <==> exists i :: 0 <= i < |cs| && cs[i].src == id
  {
    if cs != [] {
      var before := cs[..|cs| - 1];
      SourcesExact(before);
      forall id
        ensures id in SourcesOf(cs) <==> exists i :: 0 <= i < |cs| && cs[i].src == id
      {
        if exists i :: 0 <= i < |cs| && cs[i].src == id {
          var i :| 0 <= i < |cs| && cs[i].src == id;
          if i < |before| { assert before[i].src == id; }
        }
        if id in SourcesOf(before) {
          var i :| 0 <= i < |before| && before[i].src == id;
          assert cs[i].src == id;
        }
      }
    }
  }

  lemma {:induction false} UnmatchableGrows(cs: seq<Copy>, i: nat, j: nat)
    requires i < j <= |cs|
    ensures Unmatchable(cs[..i]) + (if DedupKey(cs[i].res).None? then 1 else 0) <= Unmatchable(cs[..j])
    decreases j
  {
    assert cs[..j][..j - 1] == cs[..j - 1];
    if i < j - 1 { UnmatchableGrows(cs, i, j - 1); }
  }

  lemma KeyShape(cs: seq<Copy>, i: nat)
    requires i < |cs|
    ensures |KeyAt(cs, i)| > 0
    ensures DedupKey(cs[i].res).None? ==>
              |KeyAt(cs, i)| > 12 && KeyAt(cs, i)[0] == 'u' && KeyAt(cs, i)[12..] == Show(Unmatchable(cs[..i]) + 1)
    ensures DedupKey(cs[i].res).Some? ==>
              KeyAt(cs, i) == DedupKey(cs[i].res).value && (KeyAt(cs, i)[0] == 'i' || KeyAt(cs, i)[0] == 't')
  {
    hide Show, HashOf, NormaliseTitle, ShowInt;
  }

  /** Two copies are filed together exactly when both have an identity and it is the same one. */
  lemma FiledTogether(cs: seq<Copy>, i: nat, j: nat)
    requires i < j < |cs|
    ensures KeyAt(cs, i) == KeyAt(cs, j) <==> DedupKey(cs[i].res).Some? && DedupKey(cs[i].res) == DedupKey(cs[j].res)
  {
    hide KeyAt, DedupKey, Unmatchable, Show, Read;
    KeyShape(cs, i);
    KeyShape(cs, j);
    UnmatchableGrows(cs, i, j);
    ReadShow(Unmatchable(cs[..i]) + 1);
    ReadShow(Unmatchable(cs[..j]) + 1);
  }

  ghost predicate Filed(cs: seq<Copy>, c: Copy, key: string) {
    exists i :: 0 <= i < |cs| && cs[i] == c && KeyAt(cs, i) == key
  }

  lemma FiledSnoc(before: seq<Copy>, last: Copy, c: Copy, key: string)
    ensures Filed(before + [last], c, key) <==>
      Filed(before, c, key) || (c == last && KeyAt(before + [last], |before|) == key)
  {
    var cs := before + [last];
    forall i | 0 <= i < |before|
      ensures KeyAt(before, i) == KeyAt(cs, i)
    {
      assert cs[..i] == before[..i];
    }
    if Filed(before, c, key) {
      var i :| 0 <= i < |before| && before[i] == c && KeyAt(before, i) == key;
      assert cs[i] == c && KeyAt(cs, i) == key;
    }
    if c == last && KeyAt(cs, |before|) == key { assert cs[|before|] == c; }
  }

  /** The copies filed under one key are exactly those of that key. */
  lemma {:induction false} MatchingExact(cs: seq<Copy>, key: string, c: Copy)
    ensures c in Matching(cs, key) <==> Filed(cs, c, key)
  {
    if cs != [] {
      var before, last := cs[..|cs| - 1], cs[|cs| - 1];
      assert cs == before + [last];
      MatchingExact(before, key, c);
      FiledSnoc(before, last, c, key);
    }
  }

  /**
   The output is the rows, one a key, each once, in the mode's order; rows it does not rank keep
   their first-met order.
   */
  lemma MergedExact(mode: Mode, cs: seq<Copy>)
    ensures (forall k | k in Keys(cs) :: Matching(cs, k) != []) && NoDup(Keys(cs))
    ensures forall i | 0 <= i < |cs| :: KeyAt(cs, i) in Keys(cs)
    ensures multiset(Merged(mode, cs)) == multiset(Rows(cs, Keys(cs))) && |Merged(mode, cs)| == |Keys(cs)|
    ensures forall i, j | 0 <= i < j < |Merged(mode, cs)| :: !Before(mode, Merged(mode, cs)[j], Merged(mode, cs)[i])
    ensures forall r: Result :: Tied(Order(mode), Merged(mode, cs), r) == Tied(Order(mode), Rows(cs, Keys(cs)), r)
  {
    KeysMatch(cs);
    MatchingNonempty(cs, "");
    forall i | 0 <= i < |cs|
      ensures KeyAt(cs, i) in Keys(cs)
    {
      KeyListed(cs, i);
    }
    forall r: Result
      ensures Tied(Order(mode), Merged(mode, cs), r) == Tied(Order(mode), Rows(cs, Keys(cs)), r)
    {
      BeforeOrders(mode);
      SortStable(Order(mode), Rows(cs, Keys(cs)), r);
    }
    var less := Order(mode);
    var rows := Rows(cs, Keys(cs));
    BeforeOrders(mode);
    SortSorted(less, rows);
    SortElements(less, rows);
    var out := Merged(mode, cs);
    forall i, j | 0 <= i < j < |out|
      ensures !Before(mode, out[j], out[i])
    {
      assert !less(out[j], out[i]);
    }
  }
}
