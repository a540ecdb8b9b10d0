/**
 * The layout pass of `Table` (`sgs/crawler.py`): a `table` block walks its
 * `thead`/`tbody`/`tr`/`th`/`td` descendants into a header row and a list of
 * records, expanding `colspan` by repetition and carrying `rowspan` cells
 * down the following rows through a rotating queue of cached cells.
 *
 * `colspan` and `rowspan` are the integers `int()` makes of the attributes,
 * one when the attribute is absent.
 */
module CrawlerTable {
  import opened Crawler

  /** A `td` waiting in `rowspan_cache`: the rows it still covers, and its column. */
  datatype CacheCell = CacheCell(cell: Node, count: int, idx: int)

  /** The fields the pass fills: `headers`, `records`, `record`, `rowspan_cache`. */
  datatype Layout = Layout(headers: seq<Node>, records: seq<seq<Node>>, record: seq<Node>, cache: seq<CacheCell>)

  const Empty := Layout([], [], [], [])

  /** `[cont] * colspan` when colspan > 1, else `[cont]`. */
  function Copies(x: Node, c: int): (r: seq<Node>)
    ensures |r| == (if c > 1 then c else 1)
    ensures forall k :: 0 <= k < |r| ==> r[k] == x
  {
    if c > 1 then seq(c, _ => x) else [x]
  }

  /** The cached cells whose column is `col` or later: what can still match. */
  function CountFrom(cache: seq<CacheCell>, col: int): (n: nat)
    ensures n <= |cache|
  {
    if cache == [] then 0 else (if cache[0].idx >= col then 1 else 0) + CountFrom(cache[1..], col)
  }

  lemma {:induction false} CountFromSnoc(cache: seq<CacheCell>, x: CacheCell, col: int)
    ensures CountFrom(cache + [x], col) == CountFrom(cache, col) + (if x.idx >= col then 1 else 0)
    decreases |cache|
  {
    if cache != [] {
      assert (cache + [x])[1..] == cache[1..] + [x];
      CountFromSnoc(cache[1..], x, col);
    }
  }

  lemma {:induction false} CountFromLater(cache: seq<CacheCell>, col: int)
    ensures CountFrom(cache, col + 1) <= CountFrom(cache, col)
    decreases |cache|
  {
    if cache != [] {
      CountFromLater(cache[1..], col);
    }
  }

  /** One turn of the loop drops the matched front cell out of the count. */
  lemma RotateDecreases(cache: seq<CacheCell>, col: int)
    requires cache != [] && cache[0].idx == col
    ensures var top := cache[0];
      var next := if top.count > 1 then cache[1..] + [top.(count := top.count - 1)] else cache[1..];
      CountFrom(next, col + 1) < CountFrom(cache, col)
  {
    var top := cache[0];
    CountFromLater(cache[1..], col);
    CountFromSnoc(cache[1..], top.(count := top.count - 1), col + 1);
  }

  /** What `_add_rowspan_cols` leaves behind: the column, the row and the queue. */
  datatype Added = Added(col: int, record: seq<Node>, cache: seq<CacheCell>)

  /**
   * `_add_rowspan_cols(col)`: while the front cached cell sits at the current
   * column, it is appended to the row and the column advances; a cell that
   * still covers more rows is decremented and rotated to the back, the last
   * row of a cell removes it.
   */
  function AddRowspan(col: int, record: seq<Node>, cache: seq<CacheCell>): (r: Added)
    ensures r.col - col == |r.record| - |record| >= 0
    ensures |r.cache| <= |cache|
    ensures r.cache == [] || r.cache[0].idx != r.col
    decreases CountFrom(cache, col)
  {
    if cache != [] && cache[0].idx == col then
      var top := cache[0];
      var next := if top.count > 1 then cache[1..] + [top.(count := top.count - 1)] else cache[1..];
      RotateDecreases(cache, col);
      AddRowspan(col + 1, record + [top.cell], next)
    else Added(col, record, cache)
  }

  /**
   * The column advances by one per appended cell, the row only grows by
   * cached cells, the queue never grows, and on exit the front cell (if any)
   * is not at the new column.
   */
  lemma {:induction false} AddRowspanSpec(col: int, record: seq<Node>, cache: seq<CacheCell>)
    ensures var a := AddRowspan(col, record, cache);
      && a.col - col == |a.record| - |record| >= 0
      && a.record[..|record|] == record
      && (forall k :: |record| <= k < |a.record| ==> exists c :: c in cache && c.cell == a.record[k])
      && |a.cache| <= |cache|
      && (a.cache == [] || a.cache[0].idx != a.col)
    decreases CountFrom(cache, col)
  {
    if cache != [] && cache[0].idx == col {
      var top := cache[0];
      var next := if top.count > 1 then cache[1..] + [top.(count := top.count - 1)] else cache[1..];
      RotateDecreases(cache, col);
      var record' := record + [top.cell];
      AddRowspanSpec(col + 1, record', next);
      var a := AddRowspan(col + 1, record', next);
      assert a == AddRowspan(col, record, cache);
      assert a.record[..|record'|] == record';
      assert a.record[..|record|] == record'[..|record|];
      forall k | |record| <= k < |a.record| ensures exists c :: c in cache && c.cell == a.record[k] {
        if k == |record| {
          assert a.record[k] == record'[k];
          assert top in cache;
        } else {
          var c :| c in next && c.cell == a.record[k];
          if c !in cache[1..] {
            assert c == top.(count := top.count - 1);
            assert top in cache && top.cell == c.cell;
          }
        }
      }
    }
  }

  /** When the front cached cell is not at the current column, nothing is taken. */
  lemma AddRowspanNoMatch(col: int, record: seq<Node>, cache: seq<CacheCell>)
    requires cache == [] || cache[0].idx != col
    ensures AddRowspan(col, record, cache) == Added(col, record, cache)
  {
  }

  /**
   * Every cached cell covers one row fewer after a row without `td`; cells
   * reaching zero leave the queue, the rest stay in order.
   */
  function DecrementAll(cache: seq<CacheCell>): (r: seq<CacheCell>)
    ensures |r| <= |cache|
  {
    if cache == [] then []
    else
      var c := cache[0].(count := cache[0].count - 1);
      (if c.count != 0 then [c] else []) + DecrementAll(cache[1..])
  }

  lemma {:induction false} DecrementAllSpec(cache: seq<CacheCell>)
    ensures forall c :: c in DecrementAll(cache) ==> c.count != 0 && c.(count := c.count + 1) in cache
    ensures forall c :: c in cache && c.count != 1 ==> c.(count := c.count - 1) in DecrementAll(cache)
    decreases |cache|
  {
    if cache != [] {
      DecrementAllSpec(cache[1..]);
      var c := cache[0].(count := cache[0].count - 1);
      assert c.(count := c.count + 1) == cache[0];
      forall d | d in cache && d.count != 1 ensures d.(count := d.count - 1) in DecrementAll(cache) {
        if d != cache[0] {
          assert d in cache[1..];
        }
      }
    }
  }

  /** The result of `iter_children`: whether no `td` was a direct child, and the fields. */
  datatype Pass = Pass(notConsumed: bool, layout: Layout)

  /** Appends a non-empty pending row to the records. */
  function Flush(l: Layout): (r: Layout)
    ensures r.record == [] && r.headers == l.headers && r.cache == l.cache
  {
    if l.record != [] then l.(records := l.records + [l.record], record := []) else l
  }

  predicate IsSection(n: Node) {
    n.Tbl? && (n.name == "thead" || n.name == "tbody" || n.name == "tr")
  }

  predicate IsTd(n: Node) {
    n.Tbl? && n.name == "td"
  }

  /** One `td` at column `col`: the column after it and the fields. */
  datatype Placed = Placed(col: int, layout: Layout)

  /** The `td` branch of the loop. */
  function PlaceCell(td: Node, l: Layout, col: int): (r: Placed)
    requires td.Tbl?
    ensures r.layout.headers == l.headers && r.layout.records == l.records
    ensures td.colspan >= 1 ==> r.col - col == |r.layout.record| - |l.record| >= td.colspan
  {
    var a := AddRowspan(col, l.record, l.cache);
    var cnt := td.rowspan - 1;
    var cache := if cnt != 0 then a.cache + [CacheCell(td, cnt, a.col)] else a.cache;
    var b := AddRowspan(a.col + td.colspan, a.record + Copies(td, td.colspan), cache);
    Placed(b.col, l.(record := b.record, cache := b.cache))
  }

  /** After a nested section: a section without `td` uses up one row of every cached cell. */
  function AfterSection(r: Pass): Layout {
    if r.notConsumed && r.layout.cache != [] then r.layout.(cache := DecrementAll(r.layout.cache)) else r.layout
  }

  /**
   * `iter_children` over the rest `cs` of the children, from column `col`
   * with the flag so far `nc`; the pending row is flushed at the end.
   */
  function IterFrom(cs: seq<Node>, l: Layout, col: int, nc: bool): (r: Pass)
    ensures r.layout.record == []
    ensures !nc ==> !r.notConsumed
    ensures |r.layout.headers| >= |l.headers|
    decreases SizeAll(cs)
  {
    if cs == [] then Pass(nc, Flush(l))
    else
      var n := cs[0];
      if IsSection(n) then
        var col' := if l.record != [] then 0 else col;
        assert SizeAll(cs) == Size(n) + SizeAll(cs[1..]) && Size(n) == 1 + SizeAll(n.children);
        var r := IterFrom(n.children, Flush(l), 0, true);
        IterFrom(cs[1..], AfterSection(r), col', nc)
      else if n.Tbl? && n.name == "th" then
        IterFrom(cs[1..], l.(headers := l.headers + Copies(n, n.colspan)), col, nc)
      else if IsTd(n) then
        var p := PlaceCell(n, l, col);
        IterFrom(cs[1..], p.layout, p.col, false)
      else IterFrom(cs[1..], l, col, nc)
  }

  /** The layout `Table('table', contents)` computes. */
  function TableLayoutOf(contents: seq<Node>): (r: Layout)
    ensures r.record == []
    ensures forall k :: 0 <= k < |r.records| ==> r.records[k] != []
  {
    RecordsNonEmpty(contents, Empty, 0, true);
    IterFrom(contents, Empty, 0, true).layout
  }

  /** `iter_children` returns True exactly when no direct child is a `td`. */
  lemma {:induction false} NotConsumedIff(cs: seq<Node>, l: Layout, col: int, nc: bool)
    ensures IterFrom(cs, l, col, nc).notConsumed <==> nc && forall k :: 0 <= k < |cs| ==> !IsTd(cs[k])
    decreases SizeAll(cs)
  {
    if cs != [] {
      var n := cs[0];
      assert forall k :: 1 <= k < |cs| ==> cs[k] == cs[1..][k - 1];
      if IsSection(n) {
        var col' := if l.record != [] then 0 else col;
        var r := IterFrom(n.children, Flush(l), 0, true);
        NotConsumedIff(cs[1..], AfterSection(r), col', nc);
      } else if n.Tbl? && n.name == "th" {
        NotConsumedIff(cs[1..], l.(headers := l.headers + Copies(n, n.colspan)), col, nc);
      } else if IsTd(n) {
        var p := PlaceCell(n, l, col);
        NotConsumedIff(cs[1..], p.layout, p.col, false);
      } else {
        NotConsumedIff(cs[1..], l, col, nc);
      }
    }
  }

  predicate RowsNonEmpty(l: Layout) {
    forall k :: 0 <= k < |l.records| ==> l.records[k] != []
  }

  /** Only non-empty rows reach the records, and the pass ends with no pending row. */
  lemma {:induction false} RecordsNonEmpty(cs: seq<Node>, l: Layout, col: int, nc: bool)
    requires RowsNonEmpty(l)
    ensures RowsNonEmpty(IterFrom(cs, l, col, nc).layout)
    ensures IterFrom(cs, l, col, nc).layout.record == []
    decreases SizeAll(cs)
  {
    if cs != [] {
      var n := cs[0];
      if IsSection(n) {
        var col' := if l.record != [] then 0 else col;
        assert SizeAll(cs) == Size(n) + SizeAll(cs[1..]) && Size(n) == 1 + SizeAll(n.children);
        RecordsNonEmpty(n.children, Flush(l), 0, true);
        var r := IterFrom(n.children, Flush(l), 0, true);
        RecordsNonEmpty(cs[1..], AfterSection(r), col', nc);
      } else if n.Tbl? && n.name == "th" {
        RecordsNonEmpty(cs[1..], l.(headers := l.headers + Copies(n, n.colspan)), col, nc);
      } else if IsTd(n) {
        var p := PlaceCell(n, l, col);
        RecordsNonEmpty(cs[1..], p.layout, p.col, false);
      } else {
        RecordsNonEmpty(cs[1..], l, col, nc);
      }
    }
  }

  /** A header cell with colspan c contributes max(c, 1) copies of itself, in place. */
  lemma HeaderSpan(th: Node, cs: seq<Node>, l: Layout, col: int, nc: bool)
    requires th.Tbl? && th.name == "th"
    ensures IterFrom([th] + cs, l, col, nc) ==
      IterFrom(cs, l.(headers := l.headers + Copies(th, th.colspan)), col, nc)
  {
    assert ([th] + cs)[1..] == cs;
  }

  /** With nothing cached, a data cell with colspan c adds max(c, 1) copies of itself to the row. */
  lemma CellSpan(td: Node, l: Layout, col: int)
    requires IsTd(td) && td.rowspan == 1 && l.cache == []
    ensures PlaceCell(td, l, col) == Placed(col + td.colspan, l.(record := l.record + Copies(td, td.colspan)))
  {
  }

  function Cell(name: string, rowspan: int): Node {
    Tbl("td", [Str(name)], 1, rowspan)
  }

  /** A data cell that spans one column and `r` rows. */
  predicate DataCell(n: Node, r: int) {
    n.Tbl? && n.name == "td" && n.colspan == 1 && n.rowspan == r
  }

  /** A first row (a, b) whose `a` spans further rows leaves [a, b] in the records and `a` cached at column 0. */
  lemma SpanningFirstRow(a: Node, r: int, b: Node, rest: seq<Node>)
    requires DataCell(a, r) && r >= 2 && DataCell(b, 1)
    ensures IterFrom([Tbl("tr", [a, b], 1, 1)] + rest, Empty, 0, true)
         == IterFrom(rest, Layout([], [[a, b]], [], [CacheCell(a, r - 1, 0)]), 0, true)
  {
    var cached := [CacheCell(a, r - 1, 0)];
    var l1 := Layout([], [], [a], cached);
    assert PlaceCell(a, Empty, 0) == Placed(1, l1);
    assert PlaceCell(b, l1, 1) == Placed(2, Layout([], [], [a, b], cached));
    var done := Layout([], [[a, b]], [], cached);
    assert IterFrom([b], l1, 1, false) == Pass(false, done);
    assert IterFrom([a, b], Empty, 0, true) == Pass(false, done);
    assert ([Tbl("tr", [a, b], 1, 1)] + rest)[1..] == rest;
  }

  /** A row (c) under a cell `a` cached for its last row at column 0 becomes [a, c], and the cache empties. */
  lemma CachedLastRow(a: Node, c: Node, records: seq<seq<Node>>, rest: seq<Node>)
    requires DataCell(c, 1)
    ensures IterFrom([Tbl("tr", [c], 1, 1)] + rest, Layout([], records, [], [CacheCell(a, 1, 0)]), 0, true)
         == IterFrom(rest, Layout([], records + [[a, c]], [], []), 0, true)
  {
    var l := Layout([], records, [], [CacheCell(a, 1, 0)]);
    assert AddRowspan(0, [], l.cache) == Added(1, [a], []);
    assert PlaceCell(c, l, 0) == Placed(2, Layout([], records, [a, c], []));
    assert IterFrom([c], l, 0, true) == Pass(false, Layout([], records + [[a, c]], [], []));
    assert ([Tbl("tr", [c], 1, 1)] + rest)[1..] == rest;
  }

  /** A row without cells uses up one row of every cached cell. */
  lemma EmptyRow(l: Layout, rest: seq<Node>)
    requires l.record == [] && l.cache != []
    ensures IterFrom([Tbl("tr", [], 1, 1)] + rest, l, 0, true) == IterFrom(rest, l.(cache := DecrementAll(l.cache)), 0, true)
  {
    assert IterFrom([], l, 0, true) == Pass(true, l);
    assert ([Tbl("tr", [], 1, 1)] + rest)[1..] == rest;
  }

  /**
   * A cell spanning two rows is repeated at the same column of the next row:
   * rows (a rowspan=2, b) and (c) lay out as [a, b] and [a, c].
   */
  lemma RowspanScenario()
    ensures var a := Cell("a", 2);
      var rows := [Tbl("tr", [a, Cell("b", 1)], 1, 1), Tbl("tr", [Cell("c", 1)], 1, 1)];
      TableLayoutOf(rows).records == [[a, Cell("b", 1)], [a, Cell("c", 1)]]
  {
    var a, b, c := Cell("a", 2), Cell("b", 1), Cell("c", 1);
    var tr1, tr2 := Tbl("tr", [a, b], 1, 1), Tbl("tr", [c], 1, 1);
    SpanningFirstRow(a, 2, b, [tr2]);
    assert [tr1, tr2] == [tr1] + [tr2];
    CachedLastRow(a, c, [[a, b]], []);
    assert [tr2] == [tr2] + [];
  }

  /**
   * A row without cells uses up one row of a cached cell: with a rowspan=3
   * cell, rows (a, b), (), (c) still lay out as [a, b] and [a, c].
   */
  lemma EmptyRowScenario()
    ensures var a := Cell("a", 3);
      var rows := [Tbl("tr", [a, Cell("b", 1)], 1, 1), Tbl("tr", [], 1, 1), Tbl("tr", [Cell("c", 1)], 1, 1)];
      TableLayoutOf(rows).records == [[a, Cell("b", 1)], [a, Cell("c", 1)]]
  {
    var a, b, c := Cell("a", 3), Cell("b", 1), Cell("c", 1);
    var tr1, tr2, tr3 := Tbl("tr", [a, b], 1, 1), Tbl("tr", [], 1, 1), Tbl("tr", [c], 1, 1);
    SpanningFirstRow(a, 3, b, [tr2, tr3]);
    assert [tr1, tr2, tr3] == [tr1] + [tr2, tr3];
    var done := Layout([], [[a, b]], [], [CacheCell(a, 2, 0)]);
    EmptyRow(done, [tr3]);
    assert [tr2, tr3] == [tr2] + [tr3];
    assert DecrementAll(done.cache) == [CacheCell(a, 1, 0)];
    CachedLastRow(a, c, [[a, b]], []);
    assert [tr3] == [tr3] + [];
    assert TableLayoutOf([tr1, tr2, tr3]) == Layout([], [[a, b], [a, c]], [], []);
  }

  lemma {:induction false} SizeAllBounds(cs: seq<Node>, i: nat)
    requires i < |cs|
    ensures Size(cs[i]) < SizeAll(cs) && SizeAll(cs[i + 1..]) < SizeAll(cs)
    decreases i
  {
    if i > 0 {
      SizeAllBounds(cs[1..], i - 1);
      assert cs[1..][i - 1] == cs[i] && cs[1..][i..] == cs[i + 1..];
    }
  }

  /** One step of the pass on a nested section: flush, recurse from column 0, then age the cache if no `td` was seen. */
  lemma SectionStep(cs: seq<Node>, l: Layout, col: int, nc: bool)
    requires cs != [] && IsSection(cs[0])
    ensures IterFrom(cs, l, col, nc) ==
      IterFrom(cs[1..], AfterSection(IterFrom(cs[0].children, Flush(l), 0, true)), if l.record != [] then 0 else col, nc)
  {
  }

  /** One step of the pass on a `th`: its copies join the headers. */
  lemma ThStep(cs: seq<Node>, l: Layout, col: int, nc: bool)
    requires cs != [] && !IsSection(cs[0]) && cs[0].Tbl? && cs[0].name == "th"
    ensures IterFrom(cs, l, col, nc) == IterFrom(cs[1..], l.(headers := l.headers + Copies(cs[0], cs[0].colspan)), col, nc)
  {
  }

  /** One step of the pass on a `td`: the cell is placed and the flag drops. */
  lemma TdStep(cs: seq<Node>, l: Layout, col: int, nc: bool)
    requires cs != [] && IsTd(cs[0])
    ensures IterFrom(cs, l, col, nc) == IterFrom(cs[1..], PlaceCell(cs[0], l, col).layout, PlaceCell(cs[0], l, col).col, false)
  {
  }

  /** One step of the pass on any other child: nothing happens. */
  lemma OtherStep(cs: seq<Node>, l: Layout, col: int, nc: bool)
    requires cs != [] && !IsSection(cs[0]) && !(cs[0].Tbl? && cs[0].name == "th") && !IsTd(cs[0])
    ensures IterFrom(cs, l, col, nc) == IterFrom(cs[1..], l, col, nc)
  {
  }

  /** A `table` block's layout fields as `Table` updates them. */
  class TableLayout {
    var headers: seq<Node>
    var records: seq<seq<Node>>
    var record: seq<Node>
    var rowspanCache: seq<CacheCell>

    function State(): Layout
      reads this
    {
      Layout(headers, records, record, rowspanCache)
    }

    /** `Table('table', contents)`: empty fields, then the pass over the contents. */
    constructor (contents: seq<Node>)
      ensures State() == TableLayoutOf(contents)
    {
      headers, records, record, rowspanCache := [], [], [], [];
      new;
      var _ := IterChildren(contents);
    }

    /** `_add_rowspan_cols(col_idx)` */
    method AddRowspanCols(col: int) returns (c: int)
      modifies this
      ensures Added(c, record, rowspanCache) == AddRowspan(col, old(record), old(rowspanCache))
      ensures headers == old(headers) && records == old(records)
    {
      c := col;
      while rowspanCache != [] && rowspanCache[0].idx == c
        invariant AddRowspan(c, record, rowspanCache) == AddRowspan(col, old(record), old(rowspanCache))
        invariant headers == old(headers) && records == old(records)
        decreases CountFrom(rowspanCache, c)
      {
        var top := rowspanCache[0];
        RotateDecreases(rowspanCache, c);
        record := record + [top.cell];
        if top.count > 1 {
          rowspanCache := rowspanCache[1..] + [top.(count := top.count - 1)];
        } else {
          rowspanCache := rowspanCache[1..];
        }
        c := c + 1;
      }
    }

    /** The `td` branch of `iter_children`: cached cells, then the cell's copies, then cached cells again. */
    method PlaceTd(td: Node, col: int) returns (c: int)
      requires td.Tbl?
      modifies this
      ensures Placed(c, State()) == PlaceCell(td, old(State()), col)
    {
      c := AddRowspanCols(col);
      var cnt := td.rowspan - 1;
      if cnt != 0 {
        rowspanCache := rowspanCache + [CacheCell(td, cnt, c)];
      }
      record := record + Copies(td, td.colspan);
      c := AddRowspanCols(c + td.colspan);
    }

    /** `iter_children(children)` */
    method IterChildren(children: seq<Node>) returns (notConsumed: bool)
      modifies this
      ensures Pass(notConsumed, State()) == IterFrom(children, old(State()), 0, true)
      decreases SizeAll(children)
    {
      var col := 0;
      notConsumed := true;
      var i := 0;
      while i < |children|
        invariant 0 <= i <= |children|
        invariant IterFrom(children[i..], State(), col, notConsumed) == IterFrom(children, old(State()), 0, true)
        decreases |children| - i
      {
        var cont := children[i];
        ghost var cs, l0, col0, nc0 := children[i..], State(), col, notConsumed;
        assert cs[0] == cont && cs[1..] == children[i + 1..];
        SizeAllBounds(children, i);
        if IsSection(cont) {
          if record != [] {
            records := records + [record];
            record := [];
            col := 0;
          }
          var sub := IterChildren(cont.children);
          if sub && rowspanCache != [] {
            rowspanCache := DecrementAll(rowspanCache);
          }
          SectionStep(cs, l0, col0, nc0);
        } else if cont.Tbl? && cont.name == "th" {
          headers := headers + Copies(cont, cont.colspan);
          ThStep(cs, l0, col0, nc0);
        } else if IsTd(cont) {
          notConsumed := false;
          col := PlaceTd(cont, col);
          TdStep(cs, l0, col0, nc0);
        } else {
          OtherStep(cs, l0, col0, nc0);
        }
        i := i + 1;
      }
      if record != [] {
        records := records + [record];
        record := [];
      }
    }
  }
}
