/** The downloads screen's layout and scroll offset, in lines. */
module Scroll {
  import opened Wrappers
  import EngineState

  /**
   How many lines there are, where each block (a title or a row) starts, and the selected row's
   bounds, -1 for none.
   */
  datatype Layout = Layout(total: nat, starts: seq<int>, selStart: int, selEnd: int, selHead: int)

  const BLANK := Layout(0, [], -1, -1, -1)

  // ----- building -----

  /** A blank line, then a row of h lines; sel says it is the selected one, head where an up-scroll to it stops. */
  function AddRow(l: Layout, h: nat, sel: bool, head: int): Layout {
    var start := l.total + 1;
    Layout(start + h, l.starts + [start],
           if sel then start else l.selStart, if sel then start + h else l.selEnd, if sel then head else l.selHead)
  }

  /** The first n rows of a section whose title is at line title; first is the cursor position of its first row. */
  function AddRows(l: Layout, heights: seq<nat>, n: nat, title: int, first: int, cursor: int): Layout
    requires n <= |heights|
  {
    if n == 0 then l
    else
      var m := AddRows(l, heights, n - 1, title, first, cursor);
      AddRow(m, heights[n - 1], first + n - 1 == cursor, if n == 1 then title else m.total + 1)
  }

  function AddSection(l: Layout, heights: seq<nat>, first: int, cursor: int): Layout {
    if heights == [] then l
    else
      var title := if l.total > 0 then l.total + 1 else 0;
      AddRows(l.(total := title + 1, starts := l.starts + [title]), heights, |heights|, title, first, cursor)
  }

  /** downloadsLayout, given every row's height. */
  function Build(active: seq<nat>, completed: seq<nat>, cursor: int): Layout {
    AddSection(AddSection(BLANK, active, 0, cursor), completed, |active|, cursor)
  }

  // ----- what a layout is -----

  ghost predicate Blocks(l: Layout) {
    && (forall i, j | 0 <= i < j < |l.starts| :: l.starts[i] < l.starts[j])
    && (forall i | 0 <= i < |l.starts| :: 0 <= l.starts[i] < l.total)
    && (l.total > 0 ==> l.starts != [] && l.starts[0] == 0)
  }

  /** The selected row is a block, and its head is that block or the title two lines above. */
  ghost predicate Selection(l: Layout) {
    if l.selStart < 0 then l.selStart == l.selEnd == l.selHead == -1
    else
      && l.selStart in l.starts && l.selHead in l.starts
      && (l.selHead == l.selStart || l.selHead + 2 == l.selStart)
      && l.selStart < l.selEnd <= l.total
      && forall i | 0 <= i < |l.starts| :: l.starts[i] <= l.selStart || l.selEnd < l.starts[i]
  }

  ghost predicate Valid(l: Layout) {
    Blocks(l) && Selection(l)
  }

  lemma RowValid(l: Layout, h: nat, sel: bool, head: int)
    requires Valid(l) && l.total > 0 && h > 0
    requires head == l.total + 1 || (head in l.starts && head + 1 == l.total)
    ensures Valid(AddRow(l, h, sel, head)) && forall x | x in l.starts :: x in AddRow(l, h, sel, head).starts
  {
  }

  lemma {:induction false} RowsValid(l: Layout, heights: seq<nat>, n: nat, title: int, first: int, cursor: int)
    requires n <= |heights| && forall i | 0 <= i < |heights| :: heights[i] > 0
    requires Valid(l) && title in l.starts && title + 1 == l.total
    ensures Valid(AddRows(l, heights, n, title, first, cursor))
    ensures title in AddRows(l, heights, n, title, first, cursor).starts
  {
    if n > 0 {
      var m := AddRows(l, heights, n - 1, title, first, cursor);
      RowsValid(l, heights, n - 1, title, first, cursor);
      RowValid(m, heights[n - 1], first + n - 1 == cursor, if n == 1 then title else m.total + 1);
    }
  }

  lemma SectionValid(l: Layout, heights: seq<nat>, first: int, cursor: int)
    requires Valid(l) && forall i | 0 <= i < |heights| :: heights[i] > 0
    ensures Valid(AddSection(l, heights, first, cursor))
  {
    if heights != [] {
      var title := if l.total > 0 then l.total + 1 else 0;
      var t := l.(total := title + 1, starts := l.starts + [title]);
      assert t.starts[|l.starts|] == title;
      assert forall x | x in l.starts :: x in t.starts;
      RowsValid(t, heights, |heights|, title, first, cursor);
    }
  }

  /** Every layout the screen builds has its blocks in order from line 0, and its selection on one of them. */
  lemma BuildValid(active: seq<nat>, completed: seq<nat>, cursor: int)
    requires forall i | 0 <= i < |active| :: active[i] > 0
    requires forall i | 0 <= i < |completed| :: completed[i] > 0
    ensures Valid(Build(active, completed, cursor))
  {
    SectionValid(BLANK, active, 0, cursor);
    SectionValid(AddSection(BLANK, active, 0, cursor), completed, |active|, cursor);
  }

  lemma {:induction false} RowsSelect(l: Layout, heights: seq<nat>, n: nat, title: int, first: int, cursor: int)
    requires n <= |heights| && forall i | 0 <= i < |heights| :: heights[i] > 0
    ensures var r := AddRows(l, heights, n, title, first, cursor);
      if first <= cursor < first + n then r.selStart >= 0 && r.selEnd - r.selStart == heights[cursor - first]
      else r.selStart == l.selStart && r.selEnd == l.selEnd
    ensures AddRows(l, heights, n, title, first, cursor).total >= l.total
  {
    if n > 0 { RowsSelect(l, heights, n - 1, title, first, cursor); }
  }

  /**
   The selected block is the row under the cursor, as tall as that row; there is none when the cursor
   is on no row.
   */
  lemma BuildSelects(active: seq<nat>, completed: seq<nat>, cursor: int)
    requires forall i | 0 <= i < |active| :: active[i] > 0
    requires forall i | 0 <= i < |completed| :: completed[i] > 0
    ensures var l := Build(active, completed, cursor);
      if 0 <= cursor < |active| + |completed| then
        l.selStart >= 0 && l.selEnd - l.selStart == (active + completed)[cursor]
      else l.selStart == -1
  {
    SectionSelects(BLANK, active, 0, cursor);
    SectionSelects(AddSection(BLANK, active, 0, cursor), completed, |active|, cursor);
  }

  function Sum(heights: seq<nat>): nat {
    if heights == [] then 0 else Sum(heights[..|heights| - 1]) + heights[|heights| - 1]
  }

  /** The line row i of a section starts on: its title, a blank before each row, and the rows before it. */
  function RowLine(title: nat, heights: seq<nat>, i: nat): nat
    requires i <= |heights|
  {
    title + 2 + i + Sum(heights[..i])
  }

  /** How many lines a section takes. */
  function Lines(heights: seq<nat>): nat {
    if heights == [] then 0 else 1 + |heights| + Sum(heights)
  }

  /** Where the blocks of a section start. */
  function SectionStarts(title: nat, heights: seq<nat>): seq<int> {
    if heights == [] then []
    else [title] + seq(|heights|, i requires 0 <= i < |heights| => RowLine(title, heights, i))
  }

  lemma {:induction false} RowsLines(l: Layout, heights: seq<nat>, n: nat, title: nat, first: int, cursor: int)
    requires n <= |heights| && l.total == title + 1
    ensures var r := AddRows(l, heights, n, title, first, cursor);
      && r.total == title + 1 + n + Sum(heights[..n])
      && r.starts == l.starts + seq(n, i requires 0 <= i < n => RowLine(title, heights, i))
      && (first <= cursor < first + n ==>
            && r.selStart == RowLine(title, heights, cursor - first)
            && r.selHead == if cursor == first then title else r.selStart)
      && (!(first <= cursor < first + n) ==> r.selStart == l.selStart && r.selHead == l.selHead)
  {
    if n > 0 {
      RowsLines(l, heights, n - 1, title, first, cursor);
      assert heights[..n][..n - 1] == heights[..n - 1];
    } else {
      assert heights[..0] == [];
    }
  }

  lemma SectionLines(l: Layout, heights: seq<nat>, first: int, cursor: int)
    ensures var r, title := AddSection(l, heights, first, cursor), if l.total > 0 then l.total + 1 else 0;
      && r.total == (if heights == [] then l.total else title + Lines(heights))
      && r.starts == l.starts + SectionStarts(title, heights)
      && (first <= cursor < first + |heights| ==>
            && r.selStart == RowLine(title, heights, cursor - first)
            && r.selHead == if cursor == first then title else r.selStart)
      && (!(first <= cursor < first + |heights|) ==> r.selStart == l.selStart && r.selHead == l.selHead)
  {
    if heights != [] {
      var title := if l.total > 0 then l.total + 1 else 0;
      RowsLines(l.(total := title + 1, starts := l.starts + [title]), heights, |heights|, title, first, cursor);
      assert heights[..|heights|] == heights;
    }
  }

  lemma SomeLines(heights: seq<nat>)
    ensures Lines(heights) == 0 <==> heights == []
  {
  }

  /**
   Line by line: a section is its title and its rows with a blank line before each row, sections are
   a blank line apart, and an up-scroll to the first row of a section goes on to the title.
   */
  lemma BuildLines(active: seq<nat>, completed: seq<nat>, cursor: int)
    ensures var l := Build(active, completed, cursor);
      var second := if active == [] then 0 else Lines(active) + 1;
      && l.total == (if completed == [] then Lines(active) else second + Lines(completed))
      && l.starts == SectionStarts(0, active) + SectionStarts(second, completed)
      && (0 <= cursor < |active| ==>
            l.selStart == RowLine(0, active, cursor) && l.selHead == if cursor == 0 then 0 else l.selStart)
      && (|active| <= cursor < |active| + |completed| ==>
            && l.selStart == RowLine(second, completed, cursor - |active|)
            && l.selHead == if cursor == |active| then second else l.selStart)
  {
    hide AddSection, RowLine, Sum, SectionStarts, Lines;
    SomeLines(active);
    SomeLines([]);
    SectionLines(BLANK, active, 0, cursor);
    SectionLines(AddSection(BLANK, active, 0, cursor), completed, |active|, cursor);
    assert [] + SectionStarts(0, active) == SectionStarts(0, active);
  }

  lemma SectionSelects(l: Layout, heights: seq<nat>, first: int, cursor: int)
    requires forall i | 0 <= i < |heights| :: heights[i] > 0
    ensures var r := AddSection(l, heights, first, cursor);
      if first <= cursor < first + |heights| then r.selStart >= 0 && r.selEnd - r.selStart == heights[cursor - first]
      else r.selStart == l.selStart && r.selEnd == l.selEnd
  {
    if heights != [] {
      var title := if l.total > 0 then l.total + 1 else 0;
      RowsSelect(l.(total := title + 1, starts := l.starts + [title]), heights, |heights|, title, first, cursor);
    }
  }

  // ----- the offset -----

  /** blockStartAtOrAfter: the first start from n on, n when there is none. */
  function AtOrAfter(starts: seq<int>, n: int): int {
    if starts == [] then n else if starts[0] >= n then starts[0] else AtOrAfter(starts[1..], n)
  }

  /** blockStartAtOrBefore: the last start up to n, 0 when there is none. */
  function AtOrBefore(starts: seq<int>, n: int): int {
    if starts == [] then 0
    else if starts[|starts| - 1] <= n then starts[|starts| - 1]
    else AtOrBefore(starts[..|starts| - 1], n)
  }

  function Min(a: int, b: int): int { if a < b then a else b }

  function Max(a: int, b: int): int { if a > b then a else b }

  /** The offset before the selection is looked at: in range, on a block start. */
  function Clamped(offset: int, l: Layout, budget: int): int {
    AtOrBefore(l.starts, Min(Max(offset, 0), AtOrAfter(l.starts, l.total - budget)))
  }

  /** Where the selected block has to start to be seen: with its title if both fit. */
  function Head(l: Layout, budget: int): int {
    if l.selEnd - l.selHead > budget then l.selStart else l.selHead
  }

  /** nextScrollOffset. */
  function Next(offset: int, l: Layout, budget: int): int {
    if budget <= 0 || l.total <= budget then 0
    else
      var c := Clamped(offset, l, budget);
      var d := if l.selEnd > c + budget then AtOrAfter(l.starts, l.selEnd - budget) else c;
      if l.selStart >= 0 then Min(d, Head(l, budget)) else d
  }

  lemma {:induction false} AtOrAfterLeast(starts: seq<int>, n: int)
    requires forall i, j | 0 <= i < j < |starts| :: starts[i] < starts[j]
    ensures var r := AtOrAfter(starts, n);
      && r >= n
      && (forall i | 0 <= i < |starts| && starts[i] >= n :: r <= starts[i])
      && (r in starts || (r == n && forall i | 0 <= i < |starts| :: starts[i] < n))
  {
    if starts != [] && starts[0] < n {
      AtOrAfterLeast(starts[1..], n);
      forall i | 0 <= i < |starts| && starts[i] >= n
        ensures AtOrAfter(starts, n) <= starts[i]
      {
        assert starts[i] == starts[1..][i - 1];
      }
      assert forall x | x in starts[1..] :: x in starts;
      if AtOrAfter(starts[1..], n) !in starts[1..] {
        assert forall i | 0 < i < |starts| :: starts[i] == starts[1..][i - 1];
      }
    }
  }

  lemma {:induction false} AtOrBeforeGreatest(starts: seq<int>, n: int)
    requires forall i, j | 0 <= i < j < |starts| :: starts[i] < starts[j]
    requires starts != [] && starts[0] == 0 && n >= 0
    ensures var r := AtOrBefore(starts, n);
      && r in starts && 0 <= r <= n
      && forall i | 0 <= i < |starts| && starts[i] <= n :: starts[i] <= r
  {
    var k := |starts| - 1;
    if starts[k] > n {
      AtOrBeforeGreatest(starts[..k], n);
      assert forall x | x in starts[..k] :: x in starts;
      forall i | 0 <= i < |starts| && starts[i] <= n
        ensures starts[i] <= AtOrBefore(starts, n)
      {
        assert i < k && starts[..k][i] == starts[i];
      }
    }
  }

  /** The furthest offset that leaves nothing blank. */
  function Furthest(l: Layout, budget: int): int {
    AtOrAfter(l.starts, l.total - budget)
  }

  lemma ClampedOnBlock(offset: int, l: Layout, budget: int)
    requires Valid(l) && 0 < budget < l.total
    ensures var c := Clamped(offset, l, budget);
      && c in l.starts && 0 <= c <= Furthest(l, budget) && c <= Max(offset, 0)
      && forall i | 0 <= i < |l.starts| && l.starts[i] <= Min(Max(offset, 0), Furthest(l, budget)) :: l.starts[i] <= c
  {
    AtOrAfterLeast(l.starts, l.total - budget);
    AtOrBeforeGreatest(l.starts, Min(Max(offset, 0), Furthest(l, budget)));
  }

  /** The selected block, or its title and it, can be shown whole. */
  predicate Fits(l: Layout, budget: int) {
    l.selEnd - l.selStart <= budget
  }

  /** The offset shows the selected block from its head on, whole. */
  predicate Shows(r: int, l: Layout, budget: int) {
    r <= Head(l, budget) && l.selEnd <= r + budget
  }

  /**
   What the step promises for every layout, offset and budget: the result is 0 or a block
   start no further than the furthest; a selected block that fits is wholly visible, with
   its section title when that fits too; one that does not is shown from its first line.
   */
  lemma NextShows(offset: int, l: Layout, budget: int)
    requires Valid(l)
    ensures var r := Next(offset, l, budget);
      && (r == 0 || r in l.starts)
      && (0 < budget < l.total ==> 0 <= r <= Furthest(l, budget))
      && (l.selStart >= 0 && budget > 0 && Fits(l, budget) ==> Shows(r, l, budget))
      && (l.selStart >= 0 && 0 < budget < l.total && !Fits(l, budget) ==> r == l.selStart)
  {
    hide AtOrAfter, Clamped;
    if 0 < budget < l.total {
      ClampedOnBlock(offset, l, budget);
      AtOrAfterLeast(l.starts, l.total - budget);
      AtOrAfterLeast(l.starts, l.selEnd - budget);
      if l.selStart >= 0 {
        var i :| 0 <= i < |l.starts| && l.starts[i] == l.selStart;
      }
    }
  }

  /** Taking the step again changes nothing. */
  lemma NextIdempotent(offset: int, l: Layout, budget: int)
    requires Valid(l)
    ensures Next(Next(offset, l, budget), l, budget) == Next(offset, l, budget)
  {
    if 0 < budget < l.total {
      var r := Next(offset, l, budget);
      NextShows(offset, l, budget);
      ClampedOnBlock(r, l, budget);
      AtOrAfterLeast(l.starts, l.selEnd - budget);
      if r != 0 { var i :| 0 <= i < |l.starts| && l.starts[i] == r; }
      assert Clamped(r, l, budget) == r;
    }
  }

  /** An offset in range on a block start that already shows the selection stays. */
  lemma NextStays(offset: int, l: Layout, budget: int)
    requires Valid(l) && 0 < budget < l.total && offset in l.starts && offset <= Furthest(l, budget)
    requires l.selStart >= 0 ==> Shows(offset, l, budget)
    ensures Next(offset, l, budget) == offset
  {
    ClampedOnBlock(offset, l, budget);
    var i :| 0 <= i < |l.starts| && l.starts[i] == offset;
  }

  function Distance(a: int, b: int): nat { if a < b then b - a else a - b }

  /** The view moves by the least: no block start that shows the selection is nearer the clamped offset. */
  lemma NextMovesLeast(offset: int, l: Layout, budget: int, other: int)
    requires Valid(l) && 0 < budget < l.total && l.selStart >= 0 && Fits(l, budget)
    requires other in l.starts && Shows(other, l, budget)
    ensures var c := Clamped(offset, l, budget); Distance(Next(offset, l, budget), c) <= Distance(other, c)
  {
    hide Clamped, AtOrAfter, Selection;
    AtOrAfterLeast(l.starts, l.selEnd - budget);
    var i :| 0 <= i < |l.starts| && l.starts[i] == other;
    assert AtOrAfter(l.starts, l.selEnd - budget) <= other;
  }

  // ----- the two sections -----

  /** A torrent as the screen sorts it: done says its progress is full. */
  datatype Torrent = Torrent(id: string, state: EngineState.Status, done: bool)

  predicate IsComplete(t: Torrent) {
    t.state == EngineState.Seeding || (t.state == EngineState.Paused && t.done)
  }

  /** Those of one section, in the order given. */
  function Section(ts: seq<Torrent>, complete: bool): seq<Torrent> {
    if ts == [] then []
    else
      var t := ts[|ts| - 1];
      Section(ts[..|ts| - 1], complete) + (if IsComplete(t) == complete then [t] else [])
  }

  /**
   Every torrent is in exactly one section, as often as it was listed: the completed one if it
   seeds, or is paused with all of it there; each section keeps the order of the list.
   */
  lemma {:induction false} SectionsShare(ts: seq<Torrent>, t: Torrent, u: Torrent, complete: bool)
    ensures var finished := t.state == EngineState.Seeding || (t.state == EngineState.Paused && t.done);
      multiset(Section(ts, complete))[t] == if finished == complete then multiset(ts)[t] else 0
    ensures var section := Section(ts, complete);
      t in section && u in section ==> (Ahead(section, t, u) <==> Ahead(ts, t, u))
  {
    hide Ahead;
    if ts != [] {
      var before, last := ts[..|ts| - 1], ts[|ts| - 1];
      assert ts == before + [last];
      SectionsShare(before, t, u, complete);
      SectionsShare(before, u, t, complete);
      AheadJoin(before, [last], t, u);
      AheadJoin(Section(before, complete), [last], t, u);
      AheadIn(before, t, u);
      AheadIn(Section(before, complete), t, u);
      NoneAhead(last, t, u);
      if IsComplete(last) != complete { assert Section(ts, complete) == Section(before, complete); }
    }
  }

  // ----- the loops -----

  method PartitionDownloads(ts: seq<Torrent>) returns (active: seq<Torrent>, completed: seq<Torrent>)
    ensures active == Section(ts, false) && completed == Section(ts, true)
  {
    active, completed := [], [];
    var i := 0;
    while i < |ts|
      invariant i <= |ts|
      invariant active == Section(ts[..i], false) && completed == Section(ts[..i], true)
    {
      assert ts[..i + 1][..i] == ts[..i];
      if IsComplete(ts[i]) {
        completed := completed + [ts[i]];
      } else {
        active := active + [ts[i]];
      }
      i := i + 1;
    }
    assert ts[..i] == ts;
  }

  /** writeSection. */
  method WriteSection(l: Layout, heights: seq<nat>, first: int, cursor: int) returns (r: Layout, next: int)
    ensures r == AddSection(l, heights, first, cursor) && next == first + |heights|
  {
    r, next := l, first;
    if heights == [] {
      return;
    }
    var total, starts := l.total, l.starts;
    if total > 0 {
      total := total + 1;
    }
    var title := total;
    total, starts := total + 1, starts + [title];
    r := l.(total := total, starts := starts);
    ghost var t := r;
    var i := 0;
    while i < |heights|
      invariant i <= |heights| && next == first + i
      invariant r == AddRows(t, heights, i, title, first, cursor)
    {
      var start := r.total + 1;
      var selStart, selEnd, selHead := r.selStart, r.selEnd, r.selHead;
      if next == cursor {
        selStart, selEnd, selHead := start, start + heights[i], start;
        if i == 0 {
          selHead := title;
        }
      }
      r := Layout(start + heights[i], r.starts + [start], selStart, selEnd, selHead);
      next := next + 1;
      i := i + 1;
    }
  }

  method DownloadsLayout(active: seq<nat>, completed: seq<nat>, cursor: int) returns (l: Layout)
    requires forall i | 0 <= i < |active| :: active[i] > 0
    requires forall i | 0 <= i < |completed| :: completed[i] > 0
    ensures l == Build(active, completed, cursor) && Valid(l)
  {
    var next;
    l, next := WriteSection(BLANK, active, 0, cursor);
    l, next := WriteSection(l, completed, next, cursor);
    BuildValid(active, completed, cursor);
  }

  method BlockStartAtOrAfter(starts: seq<int>, n: int) returns (r: int)
    ensures r == AtOrAfter(starts, n)
  {
    var i := 0;
    while i < |starts|
      invariant i <= |starts| && AtOrAfter(starts, n) == AtOrAfter(starts[i..], n)
    {
      if starts[i] >= n {
        return starts[i];
      }
      i := i + 1;
    }
    r := n;
  }

  method BlockStartAtOrBefore(starts: seq<int>, n: int) returns (best: int)
    ensures best == AtOrBefore(starts, n)
  {
    best := 0;
    var i := 0;
    while i < |starts|
      invariant i <= |starts| && best == AtOrBefore(starts[..i], n)
    {
      assert starts[..i + 1][..i] == starts[..i];
      if starts[i] <= n {
        best := starts[i];
      }
      i := i + 1;
    }
    assert starts[..i] == starts;
  }

  method NextScrollOffset(offset: int, l: Layout, budget: int) returns (r: int)
    ensures r == Next(offset, l, budget)
  {
    if budget <= 0 || l.total <= budget {
      return 0;
    }
    var furthest := BlockStartAtOrAfter(l.starts, l.total - budget);
    r := BlockStartAtOrBefore(l.starts, Min(Max(offset, 0), furthest));
    if l.selEnd > r + budget {
      r := l.selEnd - budget;
      ghost var from := r;
      var i := 0;
      while i < |l.starts|
        invariant i <= |l.starts| && r == from && AtOrAfter(l.starts, from) == AtOrAfter(l.starts[i..], from)
      {
        if l.starts[i] >= r {
          r := l.starts[i];
          break;
        }
        i := i + 1;
      }
    }
    var head := l.selHead;
    if l.selStart >= 0 {
      if l.selEnd - head > budget {
        head := l.selStart;
      }
      r := Min(r, head);
    }
  }
}
