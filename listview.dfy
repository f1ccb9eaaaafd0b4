/**
 * The list-view control as the preview handler drives it: the log of the
 * calls it receives, the strings those calls point at, and what the calls
 * build under the control's documented insert behaviour (inserting an item
 * at index s shifts the items at s and after down by one; an index past the
 * end appends; setting a sub-item of a missing item or column does nothing).
 */
module ListView {
  datatype Align = Left | Right

  /** LVCOLUMN: header text, width in pixels, alignment. */
  datatype Header = Header(text: string, width: nat, align: Align)

  datatype ListCall =
    | InsertColumn(col: nat, header: Header)     // ListView_InsertColumn
    | AutosizeColumn(col: nat)                   // ListView_SetColumnWidth(LVSCW_AUTOSIZE_USEHEADER)
    | InsertItem(row: nat, text: string)         // ListView_InsertItem, iSubItem == 0
    | SetItem(row: nat, sub: nat, text: string)  // ListView_SetItem

  /** The owned string a call hands the control, if any. */
  function CallTexts(c: ListCall): (ts: seq<string>)
    ensures |ts| == if c.AutosizeColumn? then 0 else 1
  {
    match c
    case InsertColumn(_, h) => [h.text]
    case AutosizeColumn(_) => []
    case InsertItem(_, t) => [t]
    case SetItem(_, _, t) => [t]
  }

  /** The strings a sequence of calls hands the control, in call order. */
  function Texts(calls: seq<ListCall>): seq<string> {
    if calls == [] then [] else CallTexts(calls[0]) + Texts(calls[1..])
  }

  lemma {:induction false} TextsAppend(a: seq<ListCall>, b: seq<ListCall>)
    ensures Texts(a + b) == Texts(a) + Texts(b)
  {
    if a == [] {
      assert a + b == b;
    } else {
      assert (a + b)[1..] == a[1..] + b;
      TextsAppend(a[1..], b);
    }
  }

  /** Texts of a concatenation, with both halves' texts already known. */
  lemma TextsJoin(a: seq<ListCall>, b: seq<ListCall>, ta: seq<string>, tb: seq<string>)
    requires Texts(a) == ta && Texts(b) == tb
    ensures Texts(a + b) == ta + tb
  {
    TextsAppend(a, b);
  }

  /** Appending one call appends the string it hands the control, if any. */
  lemma TextsSnoc(a: seq<ListCall>, c: ListCall)
    ensures Texts(a + [c]) == Texts(a) + CallTexts(c)
  {
    TextsAppend(a, [c]);
  }

  /** The control's content: its column count and, per item, text by sub-item index. */
  datatype Grid = Grid(columns: nat, rows: seq<map<nat, string>>)

  /** The effect of one call on the control's content. */
  function Apply(g: Grid, c: ListCall): (g': Grid)
    ensures c.InsertItem? ==> |g'.rows| == |g.rows| + 1
    ensures !c.InsertItem? ==> |g'.rows| == |g.rows|
    ensures g'.columns == g.columns + (if c.InsertColumn? then 1 else 0)
  {
    match c
    case InsertColumn(_, _) => g.(columns := g.columns + 1)
    case AutosizeColumn(_) => g
    case InsertItem(s, t) =>
      var at := if s <= |g.rows| then s else |g.rows|;
      var row: map<nat, string> := map[0 := t];
      g.(rows := g.rows[..at] + [row] + g.rows[at..])
    case SetItem(s, sub, t) =>
      if s < |g.rows| && sub < g.columns then
        var row: map<nat, string> := g.rows[s][sub := t];
        g.(rows := g.rows[s := row])
      else g
  }

  /** Number of item insertions among the calls. */
  function ItemsInserted(calls: seq<ListCall>): nat {
    if calls == [] then 0 else (if calls[0].InsertItem? then 1 else 0) + ItemsInserted(calls[1..])
  }

  /** Number of column insertions among the calls. */
  function ColumnsInserted(calls: seq<ListCall>): nat {
    if calls == [] then 0 else (if calls[0].InsertColumn? then 1 else 0) + ColumnsInserted(calls[1..])
  }

  /** The content after a sequence of calls, applied in order. */
  function Render(calls: seq<ListCall>, g: Grid): Grid {
    if calls == [] then g else Render(calls[1..], Apply(g, calls[0]))
  }

  /** Rendering adds one item per item insertion and one column per column insertion. */
  lemma {:induction false} RenderCounts(calls: seq<ListCall>, g: Grid)
    ensures |Render(calls, g).rows| == |g.rows| + ItemsInserted(calls)
    ensures Render(calls, g).columns == g.columns + ColumnsInserted(calls)
  {
    if calls != [] {
      RenderCounts(calls[1..], Apply(g, calls[0]));
    }
  }

  lemma {:induction false} RenderAppend(a: seq<ListCall>, b: seq<ListCall>, g: Grid)
    ensures Render(a + b, g) == Render(b, Render(a, g))
  {
    if a == [] {
      assert a + b == b;
    } else {
      assert (a + b)[1..] == a[1..] + b;
      RenderAppend(a[1..], b, Apply(g, a[0]));
    }
  }

  /** Appending one call applies it to the content so far. */
  lemma RenderSnoc(a: seq<ListCall>, c: ListCall, g: Grid)
    ensures Render(a + [c], g) == Apply(Render(a, g), c)
  {
    RenderAppend(a, [c], g);
  }
}
