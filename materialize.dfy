/**
 * What `DoPreview` does between creating the dialog and showing it: one
 * header per schema field, then, batch after batch, field after field and
 * row after row, one list-view call per value, every string it hands the
 * control kept in the handler's store, and two summary strings at the end.
 * The functions below give that sequence of calls; the lemmas state its
 * shape, the strings it stores and the table it builds.
 */
module Materialize {
  import opened Wrappers
  import opened Decimal
  import opened Arrow
  import opened Stringify
  import opened ListView

  /** `lvc.cx`: the width every header is inserted with. */
  const HeaderWidth: nat := 100

  /** The header for one schema field: its name, 100 pixels wide, right-aligned. */
  function HeaderCall(f: Field, col: nat): ListCall {
    InsertColumn(col, Header(UpToNul(f.name), HeaderWidth, Right))
  }

  /** The calls of the header loop for the first k fields. */
  function HeaderCalls(schema: seq<Field>, k: nat): (calls: seq<ListCall>)
    requires k <= |schema|
    ensures |calls| == 2 * k
  {
    if k == 0 then []
    else HeaderCalls(schema, k - 1) + [HeaderCall(schema[k - 1], k - 1), AutosizeColumn(k - 1)]
  }

  /** The display text of field i at row s of a batch. */
  function CellText(schema: seq<Field>, b: RecordBatch, i: nat, s: nat, text: CellFormat): string
    requires BatchReadable(schema, b) && i < |schema| && s < b.numRows
  {
    text(schema[i], b.byName[i], s)
  }

  /** Column 0 inserts item s; a later column sets sub-item i of item s. */
  function CellCall(schema: seq<Field>, b: RecordBatch, i: nat, s: nat, text: CellFormat): (c: ListCall)
    requires BatchReadable(schema, b) && i < |schema| && s < b.numRows
    ensures c.InsertItem? <==> i == 0
    ensures c.InsertItem? || (c.SetItem? && c.sub == i)
    ensures c.row == s && c.text == CellText(schema, b, i, s, text)
  {
    var t := CellText(schema, b, i, s, text);
    if i == 0 then InsertItem(s, t) else SetItem(s, i, t)
  }

  /** The row loop for field i, rows 0 .. k-1. */
  function RowCalls(schema: seq<Field>, b: RecordBatch, i: nat, k: nat, text: CellFormat): (calls: seq<ListCall>)
    requires BatchReadable(schema, b) && i < |schema| && k <= b.numRows
    ensures |calls| == k
  {
    if k == 0 then [] else RowCalls(schema, b, i, k - 1, text) + [CellCall(schema, b, i, k - 1, text)]
  }

  /** The field loop of one batch over its first j fields. */
  function FieldCalls(schema: seq<Field>, b: RecordBatch, j: nat, text: CellFormat): seq<ListCall>
    requires BatchReadable(schema, b) && j <= |schema|
  {
    if j == 0 then [] else FieldCalls(schema, b, j - 1, text) + RowCalls(schema, b, j - 1, b.numRows, text)
  }

  /** The batch loop over the first r batches. */
  function BatchCalls(f: ArrowFile, r: nat, text: CellFormat): seq<ListCall>
    requires FileReadable(f) && r <= |f.batches|
  {
    if r == 0 then []
    else BatchCalls(f, r - 1, text) + FieldCalls(f.schema, f.batches[r - 1], |f.schema|, text)
  }

  /** Every call `DoPreview` makes on the list view, in order. */
  function MaterializeCalls(f: ArrowFile, text: CellFormat): seq<ListCall>
    requires FileReadable(f)
  {
    HeaderCalls(f.schema, |f.schema|) + BatchCalls(f, |f.batches|, text)
  }

  /** One more field: its row loop's calls and its column of texts. */
  lemma FieldStep(schema: seq<Field>, b: RecordBatch, j: nat, text: CellFormat)
    requires BatchReadable(schema, b) && j < |schema|
    ensures FieldCalls(schema, b, j + 1, text) == FieldCalls(schema, b, j, text) + RowCalls(schema, b, j, b.numRows, text)
    ensures FieldTexts(schema, b, j + 1, text) == FieldTexts(schema, b, j, text) + ColumnTexts(schema, b, j, text)
  {
  }

  /** One more row of field i. */
  lemma RowStep(schema: seq<Field>, b: RecordBatch, i: nat, s: nat, text: CellFormat)
    requires BatchReadable(schema, b) && i < |schema| && s < b.numRows
    ensures RowCalls(schema, b, i, s + 1, text) == RowCalls(schema, b, i, s, text) + [CellCall(schema, b, i, s, text)]
    ensures ColumnTexts(schema, b, i, text)[..s + 1] == ColumnTexts(schema, b, i, text)[..s] + [CellText(schema, b, i, s, text)]
  {
  }

  /** One more batch: its field loop's calls and its texts. */
  lemma BatchStep(f: ArrowFile, r: nat, text: CellFormat)
    requires FileReadable(f) && r < |f.batches|
    ensures BatchCalls(f, r + 1, text) == BatchCalls(f, r, text) + FieldCalls(f.schema, f.batches[r], |f.schema|, text)
    ensures BatchTexts(f, r + 1, text) == BatchTexts(f, r, text) + FieldTexts(f.schema, f.batches[r], |f.schema|, text)
  {
  }

  /** The column-count and row-count labels. */
  function SummaryTexts(f: ArrowFile): seq<string> {
    [IntToDecimal(|f.schema|), IntToDecimal(f.totalRows)]
  }

  /** The names the header loop stores: each field's name up to its first NUL. */
  function NameTexts(schema: seq<Field>, k: nat): seq<string>
    requires k <= |schema|
  {
    seq(k, i requires 0 <= i < k => UpToNul(schema[i].name))
  }

  /** The texts field i of a batch gives, row by row. */
  function ColumnTexts(schema: seq<Field>, b: RecordBatch, i: nat, text: CellFormat): seq<string>
    requires BatchReadable(schema, b) && i < |schema|
  {
    seq(b.numRows, s requires 0 <= s < b.numRows => CellText(schema, b, i, s, text))
  }

  /** The texts of a batch's first j fields, field after field. */
  function FieldTexts(schema: seq<Field>, b: RecordBatch, j: nat, text: CellFormat): seq<string>
    requires BatchReadable(schema, b) && j <= |schema|
  {
    if j == 0 then [] else FieldTexts(schema, b, j - 1, text) + ColumnTexts(schema, b, j - 1, text)
  }

  /** The texts of the first r batches, batch after batch. */
  function BatchTexts(f: ArrowFile, r: nat, text: CellFormat): seq<string>
    requires FileReadable(f) && r <= |f.batches|
  {
    if r == 0 then []
    else BatchTexts(f, r - 1, text) + FieldTexts(f.schema, f.batches[r - 1], |f.schema|, text)
  }

  /** Every string a successful `DoPreview` appends to the store, in order. */
  function PreviewTexts(f: ArrowFile, text: CellFormat): seq<string>
    requires FileReadable(f)
  {
    NameTexts(f.schema, |f.schema|) + BatchTexts(f, |f.batches|, text) + SummaryTexts(f)
  }

  /** Number of cells the first r batches produce: the field count times each batch's rows. */
  function CellsUpTo(f: ArrowFile, r: nat): nat
    requires r <= |f.batches|
  {
    if r == 0 then 0 else CellsUpTo(f, r - 1) + |f.schema| * f.batches[r - 1].numRows
  }

  // ---------------------------------------------------------------------
  // Order of the calls

  /** Header i is inserted at column i with the field's name, then autosized. */
  lemma {:induction false} HeaderCallsAt(schema: seq<Field>, k: nat, i: nat)
    requires i < k <= |schema|
    ensures HeaderCalls(schema, k)[2 * i] == InsertColumn(i, Header(UpToNul(schema[i].name), 100, Right))
    ensures HeaderCalls(schema, k)[2 * i + 1] == AutosizeColumn(i)
  {
    if i < k - 1 {
      HeaderCallsAt(schema, k - 1, i);
    }
  }

  /** Within the row loop of field i, call s concerns row s. */
  lemma {:induction false} RowCallsAt(schema: seq<Field>, b: RecordBatch, i: nat, k: nat, s: nat, text: CellFormat)
    requires BatchReadable(schema, b) && i < |schema| && s < k <= b.numRows
    ensures RowCalls(schema, b, i, k, text)[s] == CellCall(schema, b, i, s, text)
  {
    if s < k - 1 {
      RowCallsAt(schema, b, i, k - 1, s, text);
    }
  }

  /**
   * Within one batch, the value of field i at row s is handled by call
   * i * numRows + s: fields in schema order, rows in increasing order, column 0
   * inserting the item and later columns setting sub-items.
   */
  lemma {:induction false} FieldCallsAt(schema: seq<Field>, b: RecordBatch, j: nat, i: nat, s: nat, text: CellFormat)
    requires BatchReadable(schema, b) && i < j <= |schema| && s < b.numRows
    ensures i * b.numRows + s < |FieldCalls(schema, b, j, text)|
    ensures FieldCalls(schema, b, j, text)[i * b.numRows + s]
         == if i == 0 then InsertItem(s, CellText(schema, b, i, s, text))
            else SetItem(s, i, CellText(schema, b, i, s, text))
  {
    var n := b.numRows;
    var prev := FieldCalls(schema, b, j - 1, text);
    assert FieldCalls(schema, b, j, text) == prev + RowCalls(schema, b, j - 1, n, text);
    FieldCallsLength(schema, b, j - 1, text);
    assert (j - 1) * n + n == j * n;
    if i < j - 1 {
      assert (i + 1) * n <= (j - 1) * n by {
        MulMonotone(i + 1, j - 1, n);
      }
      FieldCallsAt(schema, b, j - 1, i, s, text);
    } else {
      assert |prev| == i * n;
      RowCallsAt(schema, b, i, n, s, text);
    }
  }

  lemma {:induction false} FieldCallsLength(schema: seq<Field>, b: RecordBatch, j: nat, text: CellFormat)
    requires BatchReadable(schema, b) && j <= |schema|
    ensures |FieldCalls(schema, b, j, text)| == j * b.numRows
  {
    if j > 0 {
      FieldCallsLength(schema, b, j - 1, text);
      assert (j - 1) * b.numRows + b.numRows == j * b.numRows;
    }
  }

  /** The batch loop makes one call per cell of the batches it has handled. */
  lemma {:induction false} BatchCallsLength(f: ArrowFile, r: nat, text: CellFormat)
    requires FileReadable(f) && r <= |f.batches|
    ensures |BatchCalls(f, r, text)| == CellsUpTo(f, r)
  {
    if r > 0 {
      BatchCallsLength(f, r - 1, text);
      FieldCallsLength(f.schema, f.batches[r - 1], |f.schema|, text);
    }
  }

  /** `DoPreview` makes two header calls per field and one call per cell. */
  lemma MaterializeCallsLength(f: ArrowFile, text: CellFormat)
    requires FileReadable(f)
    ensures |MaterializeCalls(f, text)| == 2 * |f.schema| + CellsUpTo(f, |f.batches|)
    ensures |MaterializeCalls(f, text)| == 2 * |f.schema| + |f.schema| * RowsUpTo(f.batches, |f.batches|)
  {
    BatchCallsLength(f, |f.batches|, text);
    CellsIsProduct(f, |f.batches|);
  }

  lemma MulMonotone(a: nat, c: nat, n: nat)
    requires a <= c
    ensures a * n <= c * n
  {
  }

  // ---------------------------------------------------------------------
  // The strings kept in the store

  /** The header loop stores the field names, in schema order. */
  lemma {:induction false} HeaderTexts(schema: seq<Field>, k: nat)
    requires k <= |schema|
    ensures Texts(HeaderCalls(schema, k)) == NameTexts(schema, k)
  {
    if k > 0 {
      var prev := HeaderCalls(schema, k - 1);
      var x, y := HeaderCall(schema[k - 1], k - 1), AutosizeColumn(k - 1);
      assert HeaderCalls(schema, k) == (prev + [x]) + [y];
      TextsSnoc(prev + [x], y);
      TextsSnoc(prev, x);
      HeaderTexts(schema, k - 1);
    }
  }

  /** The row loop of field i stores that field's cell texts, row by row. */
  lemma {:induction false} RowTexts(schema: seq<Field>, b: RecordBatch, i: nat, k: nat, text: CellFormat)
    requires BatchReadable(schema, b) && i < |schema| && k <= b.numRows
    ensures Texts(RowCalls(schema, b, i, k, text))
         == seq(k, s requires 0 <= s < k => CellText(schema, b, i, s, text))
  {
    if k > 0 {
      TextsSnoc(RowCalls(schema, b, i, k - 1, text), CellCall(schema, b, i, k - 1, text));
      RowTexts(schema, b, i, k - 1, text);
    }
  }

  /** Handing a batch's first j fields to the list view passes exactly their texts. */
  lemma {:induction false} FieldTextsHanded(schema: seq<Field>, b: RecordBatch, j: nat, text: CellFormat)
    requires BatchReadable(schema, b) && j <= |schema|
    ensures Texts(FieldCalls(schema, b, j, text)) == FieldTexts(schema, b, j, text)
  {
    if j > 0 {
      var prev := FieldCalls(schema, b, j - 1, text);
      var rows := RowCalls(schema, b, j - 1, b.numRows, text);
      assert FieldCalls(schema, b, j, text) == prev + rows;
      TextsAppend(prev, rows);
      FieldTextsHanded(schema, b, j - 1, text);
      RowTexts(schema, b, j - 1, b.numRows, text);
    }
  }

  /** Handing the first r batches to the list view passes exactly their texts. */
  lemma {:induction false} BatchTextsHanded(f: ArrowFile, r: nat, text: CellFormat)
    requires FileReadable(f) && r <= |f.batches|
    ensures Texts(BatchCalls(f, r, text)) == BatchTexts(f, r, text)
  {
    if r > 0 {
      var b := f.batches[r - 1];
      BatchTextsHanded(f, r - 1, text);
      FieldTextsHanded(f.schema, b, |f.schema|, text);
      TextsJoin(BatchCalls(f, r - 1, text), FieldCalls(f.schema, b, |f.schema|, text),
                BatchTexts(f, r - 1, text), FieldTexts(f.schema, b, |f.schema|, text));
      BatchStep(f, r - 1, text);
    }
  }

  /**
   * What a successful preview stores is exactly every string it hands to the
   * list view, in the order it hands them, followed by the two summary labels.
   */
  lemma PreviewTextsHanded(f: ArrowFile, text: CellFormat)
    requires FileReadable(f)
    ensures PreviewTexts(f, text) == Texts(MaterializeCalls(f, text)) + SummaryTexts(f)
  {
    TextsAppend(HeaderCalls(f.schema, |f.schema|), BatchCalls(f, |f.batches|, text));
    HeaderTexts(f.schema, |f.schema|);
    BatchTextsHanded(f, |f.batches|, text);
  }

  lemma {:induction false} FieldTextsCount(schema: seq<Field>, b: RecordBatch, j: nat, text: CellFormat)
    requires BatchReadable(schema, b) && j <= |schema|
    ensures |FieldTexts(schema, b, j, text)| == j * b.numRows
  {
    if j > 0 {
      FieldTextsCount(schema, b, j - 1, text);
      MulSucc(j - 1, b.numRows);
    }
  }

  lemma MulSucc(m: nat, n: nat)
    ensures m * n + n == (m + 1) * n
  {
  }

  lemma {:induction false} BatchTextsCount(f: ArrowFile, r: nat, text: CellFormat)
    requires FileReadable(f) && r <= |f.batches|
    ensures |BatchTexts(f, r, text)| == CellsUpTo(f, r)
  {
    if r > 0 {
      BatchTextsCount(f, r - 1, text);
      FieldTextsCount(f.schema, f.batches[r - 1], |f.schema|, text);
    }
  }

  lemma {:induction false} CellsIsProduct(f: ArrowFile, r: nat)
    requires r <= |f.batches|
    ensures CellsUpTo(f, r) == |f.schema| * RowsUpTo(f.batches, r)
  {
    if r > 0 {
      CellsIsProduct(f, r - 1);
    }
  }

  /**
   * A successful preview stores one string per field name, one per (batch,
   * field, row) value and two summary strings; the stored strings start with
   * the field names and end with the decimal field count and the reader's
   * total row count.
   */
  lemma StoredGrowth(f: ArrowFile, text: CellFormat)
    requires FileReadable(f)
    ensures |PreviewTexts(f, text)| == |f.schema| + CellsUpTo(f, |f.batches|) + 2
    ensures |PreviewTexts(f, text)| == |f.schema| + |f.schema| * RowsUpTo(f.batches, |f.batches|) + 2
    ensures forall i :: 0 <= i < |f.schema| ==> PreviewTexts(f, text)[i] == UpToNul(f.schema[i].name)
    ensures PreviewTexts(f, text)[|PreviewTexts(f, text)| - 2] == IntToDecimal(|f.schema|)
    ensures PreviewTexts(f, text)[|PreviewTexts(f, text)| - 1] == IntToDecimal(f.totalRows)
    ensures ParseDecimal(PreviewTexts(f, text)[|PreviewTexts(f, text)| - 2]) == Some(|f.schema|)
    ensures ParseDecimal(PreviewTexts(f, text)[|PreviewTexts(f, text)| - 1]) == Some(f.totalRows)
  {
    var nf := |f.schema|;
    BatchTextsCount(f, |f.batches|, text);
    CellsIsProduct(f, |f.batches|);
    IntRoundTrip(nf);
    IntRoundTrip(f.totalRows);
  }

  // ---------------------------------------------------------------------
  // The table the calls build

  /** Item s of a batch after its first j fields: sub-items 0 .. j-1 hold their texts. */
  function Partial(schema: seq<Field>, b: RecordBatch, j: nat, s: nat, text: CellFormat): map<nat, string>
    requires BatchReadable(schema, b) && j <= |schema| && s < b.numRows
  {
    map c: nat | c < j :: CellText(schema, b, c, s, text)
  }

  /** Items 0 .. k-1 of a batch after its first j fields. */
  function PartialRows(schema: seq<Field>, b: RecordBatch, j: nat, k: nat, text: CellFormat): (rows: seq<map<nat, string>>)
    requires BatchReadable(schema, b) && j <= |schema| && k <= b.numRows
    ensures |rows| == k
  {
    seq(k, s requires 0 <= s < k => Partial(schema, b, j, s, text))
  }

  /** The items one batch leaves in the table: none when the schema has no field. */
  function BatchRows(schema: seq<Field>, b: RecordBatch, text: CellFormat): seq<map<nat, string>>
    requires BatchReadable(schema, b)
  {
    if |schema| == 0 then [] else PartialRows(schema, b, |schema|, b.numRows, text)
  }

  lemma BatchRowsCount(schema: seq<Field>, b: RecordBatch, text: CellFormat)
    requires BatchReadable(schema, b) && 0 < |schema|
    ensures |BatchRows(schema, b, text)| == b.numRows
  {
  }

  lemma BatchRowsAt(schema: seq<Field>, b: RecordBatch, s: nat, text: CellFormat)
    requires BatchReadable(schema, b) && 0 < |schema| && s < b.numRows
    ensures BatchRows(schema, b, text)[s] == Partial(schema, b, |schema|, s, text)
  {
  }

  /** The items of the first r batches, the later batch above the earlier one. */
  function Stacked(f: ArrowFile, r: nat, text: CellFormat): seq<map<nat, string>>
    requires FileReadable(f) && r <= |f.batches|
  {
    if r == 0 then [] else BatchRows(f.schema, f.batches[r - 1], text) + Stacked(f, r - 1, text)
  }

  lemma {:induction false} HeaderRender(schema: seq<Field>, k: nat, g: Grid)
    requires k <= |schema|
    ensures Render(HeaderCalls(schema, k), g) == g.(columns := g.columns + k)
  {
    if k > 0 {
      var prev := HeaderCalls(schema, k - 1);
      var x, y := HeaderCall(schema[k - 1], k - 1), AutosizeColumn(k - 1);
      assert HeaderCalls(schema, k) == (prev + [x]) + [y];
      RenderSnoc(prev + [x], y, g);
      RenderSnoc(prev, x, g);
      HeaderRender(schema, k - 1, g);
    }
  }

  /** Column 0 inserts rows 0 .. k-1 above the items already there. */
  lemma {:induction false} FirstFieldRender(schema: seq<Field>, b: RecordBatch, k: nat, g: Grid, text: CellFormat)
    requires BatchReadable(schema, b) && 0 < |schema| && k <= b.numRows
    ensures Render(RowCalls(schema, b, 0, k, text), g)
         == g.(rows := PartialRows(schema, b, 1, k, text) + g.rows)
  {
    if k == 0 {
      assert PartialRows(schema, b, 1, 0, text) + g.rows == g.rows;
    } else {
      var prevCalls := RowCalls(schema, b, 0, k - 1, text);
      var t := CellText(schema, b, 0, k - 1, text);
      assert RowCalls(schema, b, 0, k, text) == prevCalls + [InsertItem(k - 1, t)];
      RenderSnoc(prevCalls, InsertItem(k - 1, t), g);
      FirstFieldRender(schema, b, k - 1, g, text);
      var done := PartialRows(schema, b, 1, k - 1, text);
      var row: map<nat, string> := map[0 := t];
      PartialFirst(schema, b, k - 1, text);
      assert (done + g.rows)[..k - 1] == done;
      assert (done + g.rows)[k - 1..] == g.rows;
      assert PartialRows(schema, b, 1, k, text) == done + [row];
    }
  }

  lemma PartialFirst(schema: seq<Field>, b: RecordBatch, s: nat, text: CellFormat)
    requires BatchReadable(schema, b) && 0 < |schema| && s < b.numRows
    ensures Partial(schema, b, 1, s, text) == map[0 := CellText(schema, b, 0, s, text)]
  {
    assert Partial(schema, b, 1, s, text).Keys == {0};
  }

  /** A later column i sets sub-item i of items 0 .. k-1 and changes nothing else. */
  lemma {:induction false} LaterFieldRender(schema: seq<Field>, b: RecordBatch, i: nat, k: nat, g: Grid, text: CellFormat)
    requires BatchReadable(schema, b) && 0 < i < |schema| && i < g.columns
    requires k <= b.numRows && k <= |g.rows|
    ensures Render(RowCalls(schema, b, i, k, text), g).columns == g.columns
    ensures |Render(RowCalls(schema, b, i, k, text), g).rows| == |g.rows|
    ensures forall s :: 0 <= s < k ==>
              Render(RowCalls(schema, b, i, k, text), g).rows[s] == g.rows[s][i := CellText(schema, b, i, s, text)]
    ensures forall s :: k <= s < |g.rows| ==> Render(RowCalls(schema, b, i, k, text), g).rows[s] == g.rows[s]
  {
    if k > 0 {
      RenderSnoc(RowCalls(schema, b, i, k - 1, text), CellCall(schema, b, i, k - 1, text), g);
      LaterFieldRender(schema, b, i, k - 1, g, text);
    }
  }

  lemma PartialStep(schema: seq<Field>, b: RecordBatch, j: nat, s: nat, text: CellFormat)
    requires BatchReadable(schema, b) && j < |schema| && s < b.numRows
    ensures Partial(schema, b, j, s, text)[j := CellText(schema, b, j, s, text)]
         == Partial(schema, b, j + 1, s, text)
  {
    var lhs := Partial(schema, b, j, s, text)[j := CellText(schema, b, j, s, text)];
    var rhs := Partial(schema, b, j + 1, s, text);
    assert lhs.Keys == rhs.Keys;
  }

  /** After its first j >= 1 fields, a batch's rows sit above the earlier items with sub-items 0 .. j-1 set. */
  lemma {:induction false} FieldsRender(schema: seq<Field>, b: RecordBatch, j: nat, g: Grid, text: CellFormat)
    requires BatchReadable(schema, b) && 1 <= j <= |schema| <= g.columns
    ensures Render(FieldCalls(schema, b, j, text), g)
         == g.(rows := PartialRows(schema, b, j, b.numRows, text) + g.rows)
  {
    var n := b.numRows;
    var prev := FieldCalls(schema, b, j - 1, text);
    var rows := RowCalls(schema, b, j - 1, n, text);
    assert FieldCalls(schema, b, j, text) == prev + rows;
    RenderAppend(prev, rows, g);
    if j == 1 {
      assert prev + rows == rows;
      FirstFieldRender(schema, b, n, g, text);
    } else {
      var mid := g.(rows := PartialRows(schema, b, j - 1, n, text) + g.rows);
      FieldsRender(schema, b, j - 1, g, text);
      assert Render(prev, g) == mid;
      NextFieldRender(schema, b, j - 1, g, text);
      assert Render(rows, mid) == g.(rows := PartialRows(schema, b, j, n, text) + g.rows);
    }
  }

  /** Column i of a batch turns its items from "sub-items below i set" into "sub-items up to i set". */
  lemma NextFieldRender(schema: seq<Field>, b: RecordBatch, i: nat, g: Grid, text: CellFormat)
    requires BatchReadable(schema, b) && 1 <= i < |schema| <= g.columns
    ensures Render(RowCalls(schema, b, i, b.numRows, text), g.(rows := PartialRows(schema, b, i, b.numRows, text) + g.rows))
         == g.(rows := PartialRows(schema, b, i + 1, b.numRows, text) + g.rows)
  {
    var n := b.numRows;
    var mid := g.(rows := PartialRows(schema, b, i, n, text) + g.rows);
    var after := Render(RowCalls(schema, b, i, n, text), mid);
    var want := PartialRows(schema, b, i + 1, n, text) + g.rows;
    LaterFieldRender(schema, b, i, n, mid, text);
    forall s | 0 <= s < |want|
      ensures after.rows[s] == want[s]
    {
      if s < n {
        PartialStep(schema, b, i, s, text);
      }
    }
    assert after.rows == want;
  }

  lemma {:induction false} BatchesRender(f: ArrowFile, r: nat, text: CellFormat)
    requires FileReadable(f) && r <= |f.batches|
    ensures Render(BatchCalls(f, r, text), Grid(|f.schema|, [])) == Grid(|f.schema|, Stacked(f, r, text))
  {
    if r > 0 {
      var b := f.batches[r - 1];
      var g := Grid(|f.schema|, []);
      RenderAppend(BatchCalls(f, r - 1, text), FieldCalls(f.schema, b, |f.schema|, text), g);
      BatchesRender(f, r - 1, text);
      if |f.schema| == 0 {
        assert FieldCalls(f.schema, b, 0, text) == [];
      } else {
        FieldsRender(f.schema, b, |f.schema|, Grid(|f.schema|, Stacked(f, r - 1, text)), text);
      }
    }
  }

  /**
   * Under the control's insert-and-shift behaviour, the table `DoPreview`
   * builds has one column per field and holds the items of every batch, the
   * last batch's on top, every item with all of its sub-items set.
   */
  lemma RenderMaterialized(f: ArrowFile, text: CellFormat)
    requires FileReadable(f)
    ensures Render(MaterializeCalls(f, text), Grid(0, [])) == Grid(|f.schema|, Stacked(f, |f.batches|, text))
  {
    var nf := |f.schema|;
    RenderAppend(HeaderCalls(f.schema, nf), BatchCalls(f, |f.batches|, text), Grid(0, []));
    HeaderRender(f.schema, nf, Grid(0, []));
    BatchesRender(f, |f.batches|, text);
  }

  /** With at least one field, the table holds as many items as all batches have rows. */
  lemma {:induction false} StackedCount(f: ArrowFile, r: nat, text: CellFormat)
    requires FileReadable(f) && r <= |f.batches|
    ensures |Stacked(f, r, text)| == if |f.schema| == 0 then 0 else RowsUpTo(f.batches, r)
  {
    if r > 0 {
      StackedCount(f, r - 1, text);
    }
  }

  /**
   * When the reader's row count agrees with its batches, the row-count label
   * gives the number of items the list view shows.
   */
  lemma RowsLabelMatches(f: ArrowFile, text: CellFormat)
    requires FileReadable(f) && CountConsistent(f) && |f.schema| > 0
    ensures |Stacked(f, |f.batches|, text)| == f.totalRows
    ensures ParseDecimal(SummaryTexts(f)[1]) == Some(|Stacked(f, |f.batches|, text)|)
  {
    StackedCount(f, |f.batches|, text);
    IntRoundTrip(f.totalRows);
  }

  /** Rows of the batches read after batch q and before batch r. */
  function RowsBetween(batches: seq<RecordBatch>, q: nat, r: nat): nat
    requires q < r <= |batches|
  {
    if r == q + 1 then 0 else RowsBetween(batches, q, r - 1) + batches[r - 1].numRows
  }

  /** Those rows are the rows up to batch r less those up to and including batch q. */
  lemma {:induction false} RowsBetweenIsDifference(batches: seq<RecordBatch>, q: nat, r: nat)
    requires q < r <= |batches|
    ensures RowsUpTo(batches, q + 1) + RowsBetween(batches, q, r) == RowsUpTo(batches, r)
  {
    if r > q + 1 {
      RowsBetweenIsDifference(batches, q, r - 1);
    }
  }

  /** Indexing past the first part of a concatenation reads the second part. */
  lemma IndexAfter<T>(a: seq<T>, b: seq<T>, i: nat, x: T)
    requires i < |b| && b[i] == x
    ensures (a + b)[|a| + i] == x
  {
  }

  /**
   * Row s of batch q ends up as item RowsBetween(q, r) + s: the batches read
   * later sit above it, and it holds the texts of all of its fields.
   */
  lemma {:induction false} StackedAt(f: ArrowFile, r: nat, q: nat, s: nat, text: CellFormat)
    requires FileReadable(f) && 0 < |f.schema| && q < r <= |f.batches| && s < f.batches[q].numRows
    ensures RowsBetween(f.batches, q, r) + s < |Stacked(f, r, text)|
    ensures Stacked(f, r, text)[RowsBetween(f.batches, q, r) + s] == Partial(f.schema, f.batches[q], |f.schema|, s, text)
  {
    var top := BatchRows(f.schema, f.batches[r - 1], text);
    var rest := Stacked(f, r - 1, text);
    assert Stacked(f, r, text) == top + rest;
    BatchRowsCount(f.schema, f.batches[r - 1], text);
    if q < r - 1 {
      StackedAt(f, r - 1, q, s, text);
      IndexAfter(top, rest, RowsBetween(f.batches, q, r - 1) + s, Partial(f.schema, f.batches[q], |f.schema|, s, text));
    } else {
      BatchRowsAt(f.schema, f.batches[q], s, text);
    }
  }
}
