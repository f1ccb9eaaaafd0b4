/**
 * The preview handler object: the path it was initialised with, the parent
 * window and rectangle the host gave it, the preview dialog when one exists,
 * and the store of strings the dialog's controls point at.
 */
module PreviewHandler {
  import opened Wrappers
  import opened Status
  import opened Decimal
  import opened Arrow
  import opened Stringify
  import opened ListView
  import opened Materialize

  /** A non-null window handle. */
  type Hwnd = nat

  datatype Rect = Rect(left: int, top: int, right: int, bottom: int)

  /** What the list view is narrower and shorter than the dialog. */
  const CorrectWidth: int := 25
  const CorrectHeight: int := 25

  /** RECTWIDTH: the horizontal extent of the rectangle. */
  function RectWidth(rc: Rect): (w: int)
    ensures rc.left + w == rc.right
  {
    rc.right - rc.left
  }

  /** RECTHEIGHT: the vertical extent of the rectangle. */
  function RectHeight(rc: Rect): (h: int)
    ensures rc.top + h == rc.bottom
  {
    rc.bottom - rc.top
  }

  /**
   * The preview dialog: its parent, its size and that of its list view, the
   * title label, the calls its list view received, and the column-count and
   * row-count labels.
   */
  datatype Window = Window(
    parent: Option<Hwnd>,
    width: int, height: int,
    listWidth: int, listHeight: int,
    title: string,
    list: seq<ListCall>,
    colsLabel: string, rowsLabel: string)

  /** The dialog's size and its list view's for a parent rectangle. */
  function Sized(w: Window, rc: Rect): (w': Window)
    ensures w'.width == RectWidth(rc) && w'.height == RectHeight(rc)
    ensures w'.listWidth + CorrectWidth == w'.width && w'.listHeight + CorrectHeight == w'.height
    ensures w'.parent == w.parent && w'.title == w.title && w'.list == w.list
    ensures w'.colsLabel == w.colsLabel && w'.rowsLabel == w.rowsLabel
  {
    w.(width := RectWidth(rc), height := RectHeight(rc),
       listWidth := RectWidth(rc) - CorrectWidth, listHeight := RectHeight(rc) - CorrectHeight)
  }

  /** The strings the dialog's list view and count labels point at: list-view texts, then the two labels. */
  function WindowTexts(w: Window): seq<string> {
    Texts(w.list) + [w.colsLabel, w.rowsLabel]
  }

  /** The outcome of CreateDialog: a window, or none and the thread's last error. */
  datatype Dialog = Created | NotCreated(lastError: uint32)

  class RecipePreviewHandler {
    var path: Option<string>      // m_pPathFile
    var parent: Option<Hwnd>      // m_hwndParent
    var rcParent: Rect            // m_rcParent
    var preview: Option<Window>   // m_hwndPreview
    var stored: seq<string>       // stored

    /**
     * A preview exists only for a path, and the store holds exactly the
     * strings its list view and its two count labels point at (the title
     * label points at the path itself); without a preview the store is empty.
     */
    ghost predicate Valid()
      reads this
    {
      match preview
      case None => stored == []
      case Some(w) => path.Some? && stored == WindowTexts(w)
    }

    constructor ()
      ensures Valid()
      ensures path == None && parent == None && preview == None && stored == []
      ensures rcParent == Rect(0, 0, 0, 0)
    {
      path := None;
      parent := None;
      rcParent := Rect(0, 0, 0, 0);
      preview := None;
      stored := [];
    }

    /** IInitializeWithFile::Initialize: a null path is refused, any other replaces the stored one. */
    method Initialize(filePath: Option<string>) returns (hr: HResult)
      requires Valid()
      modifies this
      ensures Valid()
      ensures filePath.None? ==> hr == E_INVALIDARG && path == old(path)
      ensures filePath.Some? ==> hr == S_OK && path == filePath
      ensures parent == old(parent) && rcParent == old(rcParent)
      ensures preview == old(preview) && stored == old(stored)
    {
      hr := E_INVALIDARG;
      if filePath.Some? {
        if path.Some? {
          path := None;
        }
        path := filePath;
        hr := S_OK;
      }
    }

    /**
     * IPreviewHandler::SetWindow: with both a parent and a rectangle, caches
     * them and moves an existing dialog under the parent at the new size.
     */
    method SetWindow(hwnd: Option<Hwnd>, prc: Option<Rect>) returns (hr: HResult)
      requires Valid()
      modifies this
      ensures Valid()
      ensures hr == S_OK
      ensures hwnd.Some? && prc.Some? ==>
        && parent == hwnd && rcParent == prc.value
        && preview == (if old(preview).None? then None
                       else Some(old(preview).value.(parent := hwnd,
                                                     width := RectWidth(prc.value),
                                                     height := RectHeight(prc.value))))
      ensures !(hwnd.Some? && prc.Some?) ==>
        parent == old(parent) && rcParent == old(rcParent) && preview == old(preview)
      ensures path == old(path) && stored == old(stored)
    {
      if hwnd.Some? && prc.Some? {
        parent := hwnd;
        rcParent := prc.value;
        if preview.Some? {
          var w := preview.value;
          preview := Some(w.(parent := parent,
                             width := RectWidth(rcParent), height := RectHeight(rcParent)));
        }
      }
      hr := S_OK;
    }

    /**
     * IPreviewHandler::SetRect: a null rectangle is refused; otherwise it is
     * cached and an existing dialog and its list view take the new size.
     */
    method SetRect(prc: Option<Rect>) returns (hr: HResult)
      requires Valid()
      modifies this
      ensures Valid()
      ensures prc.None? ==> hr == E_INVALIDARG && rcParent == old(rcParent) && preview == old(preview)
      ensures prc.Some? ==>
        && hr == S_OK && rcParent == prc.value
        && preview == (if old(preview).None? then None else Some(Sized(old(preview).value, prc.value)))
      ensures path == old(path) && parent == old(parent) && stored == old(stored)
    {
      hr := E_INVALIDARG;
      if prc.Some? {
        rcParent := prc.value;
        if preview.Some? {
          preview := Some(Sized(preview.value, rcParent));
        }
        hr := S_OK;
      }
    }

    /**
     * IPreviewHandler::DoPreview. `src` is what opening the stored path gives,
     * `dialog` what CreateDialog gives, `fmt` the platform's floating-point
     * text. Refuses when a preview exists or no path is set; fails without
     * creating anything when the file cannot be opened as an Arrow IPC file
     * or the dialog cannot be created; otherwise fills the list view, stores
     * every string it hands the controls, and sets the summary labels.
     */
    method DoPreview(src: Source, dialog: Dialog, fmt: FloatFormat) returns (hr: HResult)
      requires Valid()
      requires preview.None? && path.Some? && src.Opened? && dialog.Created? ==> FileReadable(src.file)
      modifies this
      ensures Valid()
      ensures path == old(path) && parent == old(parent) && rcParent == old(rcParent)
      ensures old(preview).Some? || old(path).None? ==>
        hr == E_FAIL && preview == old(preview) && stored == old(stored)
      ensures old(preview).None? && old(path).Some? && !src.Opened? ==>
        hr == E_FAIL && preview == None && stored == old(stored)
      ensures old(preview).None? && old(path).Some? && src.Opened? && dialog.NotCreated? ==>
        hr == FromWin32(dialog.lastError) && preview == None && stored == old(stored)
      ensures old(preview).None? && old(path).Some? && src.Opened? && dialog.Created? ==>
        && hr == S_OK
        && stored == old(stored) + PreviewTexts(src.file, Shown(fmt))
        && preview == Some(Window(parent,
                                  RectWidth(rcParent), RectHeight(rcParent),
                                  RectWidth(rcParent) - CorrectWidth, RectHeight(rcParent) - CorrectHeight,
                                  path.value,
                                  MaterializeCalls(src.file, Shown(fmt)),
                                  IntToDecimal(|src.file.schema|), IntToDecimal(src.file.totalRows)))
    {
      if preview.Some? || path.None? {
        return E_FAIL;
      }
      hr := E_FAIL;
      match src {
        case NoFileSystem => return E_FAIL;
        case CannotOpenInput => return E_FAIL;
        case NotAnArrowFile => return E_FAIL;
        case Opened(_) =>
      }
      var file := src.file;
      if dialog.NotCreated? {
        return FromWin32(dialog.lastError);
      }
      Populate(file, Shown(fmt));
      hr := S_OK;
    }

    /**
     * DoPreview once the dialog exists: sizes it to the parent rectangle and
     * its list view to that less the margins, titles it with the path, fills
     * the list view with `text` giving each value's display string, and sets
     * the field-count and row-count labels.
     */
    method Populate(file: ArrowFile, text: CellFormat)
      requires Valid() && preview.None? && path.Some? && FileReadable(file)
      modifies this
      ensures Valid()
      ensures path == old(path) && parent == old(parent) && rcParent == old(rcParent)
      ensures stored == old(stored) + PreviewTexts(file, text)
      ensures preview == Some(Window(parent,
                                     RectWidth(rcParent), RectHeight(rcParent),
                                     RectWidth(rcParent) - CorrectWidth, RectHeight(rcParent) - CorrectHeight,
                                     path.value,
                                     MaterializeCalls(file, text),
                                     IntToDecimal(|file.schema|), IntToDecimal(file.totalRows)))
    {
      var w := Window(parent,
                      RectWidth(rcParent), RectHeight(rcParent),
                      RectWidth(rcParent) - CorrectWidth, RectHeight(rcParent) - CorrectHeight,
                      path.value, [], "", "");
      preview := Some(w);

      var calls, cols, rows := FillAndCount(file, text);
      preview := Some(w.(list := calls, colsLabel := cols, rowsLabel := rows));
    }

    /**
     * Fills the list view, then stores the decimal field count and the
     * reader's row count for the two labels.
     */
    method FillAndCount(file: ArrowFile, text: CellFormat) returns (calls: seq<ListCall>, cols: string, rows: string)
      requires FileReadable(file)
      modifies this`stored
      ensures calls == MaterializeCalls(file, text)
      ensures cols == IntToDecimal(|file.schema|) && rows == IntToDecimal(file.totalRows)
      ensures stored == old(stored) + PreviewTexts(file, text)
      ensures stored == old(stored) + Texts(calls) + [cols, rows]
    {
      calls := FillList(file, text);
      cols := IntToDecimal(|file.schema|);
      rows := IntToDecimal(file.totalRows);
      stored := stored + [cols];
      stored := stored + [rows];
      PreviewTextsHanded(file, text);
    }

    /**
     * The part of DoPreview that fills the list view: the headers, then
     * every batch; every string handed to the list view is stored first.
     */
    method FillList(file: ArrowFile, text: CellFormat) returns (calls: seq<ListCall>)
      requires FileReadable(file)
      modifies this`stored
      ensures calls == MaterializeCalls(file, text)
      ensures stored == old(stored) + NameTexts(file.schema, |file.schema|) + BatchTexts(file, |file.batches|, text)
    {
      var headers := InsertHeaders(file.schema);
      var batches := FillBatches(file, text);
      calls := headers + batches;
    }

    /**
     * DoPreview's header loop: one right-aligned column per field, titled
     * with the field name up to its first NUL, followed by an autosize.
     */
    method InsertHeaders(schema: seq<Field>) returns (calls: seq<ListCall>)
      modifies this`stored
      ensures calls == HeaderCalls(schema, |schema|)
      ensures stored == old(stored) + NameTexts(schema, |schema|)
    {
      calls := [];
      var icol := 0;
      while icol < |schema|
        invariant icol <= |schema|
        invariant calls == HeaderCalls(schema, icol)
        invariant stored == old(stored) + NameTexts(schema, icol)
      {
        stored := stored + [UpToNul(schema[icol].name)];
        assert NameTexts(schema, icol + 1) == NameTexts(schema, icol) + [UpToNul(schema[icol].name)];
        var column := InsertColumn(icol, Header(stored[|stored| - 1], HeaderWidth, Right));
        calls := calls + [column, AutosizeColumn(icol)];
        icol := icol + 1;
      }
    }

    /**
     * DoPreview's batch loop: every record batch in file order, each one
     * filled field by field, its rows numbered from zero again.
     */
    method FillBatches(file: ArrowFile, text: CellFormat) returns (calls: seq<ListCall>)
      requires FileReadable(file)
      modifies this`stored
      ensures calls == BatchCalls(file, |file.batches|, text)
      ensures stored == old(stored) + BatchTexts(file, |file.batches|, text)
    {
      calls := [];
      var record := 0;
      while record < |file.batches|
        invariant record <= |file.batches|
        invariant calls == BatchCalls(file, record, text)
        invariant stored == old(stored) + BatchTexts(file, record, text)
      {
        var batchCalls := FillBatch(file.schema, file.batches[record], text);
        BatchStep(file, record, text);
        calls := calls + batchCalls;
        record := record + 1;
      }
    }

    /**
     * The body of DoPreview's batch loop: for each field in schema order, for
     * each row, the value's text is stored and handed to the list view.
     */
    method FillBatch(schema: seq<Field>, rb: RecordBatch, text: CellFormat) returns (calls: seq<ListCall>)
      requires BatchReadable(schema, rb)
      modifies this`stored
      ensures calls == FieldCalls(schema, rb, |schema|, text)
      ensures stored == old(stored) + FieldTexts(schema, rb, |schema|, text)
    {
      calls := [];
      var nItem := 0;
      while nItem < |schema|
        invariant nItem <= |schema|
        invariant calls == FieldCalls(schema, rb, nItem, text)
        invariant stored == old(stored) + FieldTexts(schema, rb, nItem, text)
      {
        var rowCalls := FillColumn(schema, rb, nItem, text);
        FieldStep(schema, rb, nItem, text);
        calls := calls + rowCalls;
        nItem := nItem + 1;
      }
    }

    /**
     * The row loop for field i of a batch: each value's text is stored, then
     * inserted as item s (column 0) or set as sub-item i of item s.
     */
    method FillColumn(schema: seq<Field>, rb: RecordBatch, i: nat, text: CellFormat) returns (calls: seq<ListCall>)
      requires BatchReadable(schema, rb) && i < |schema|
      modifies this`stored
      ensures calls == RowCalls(schema, rb, i, rb.numRows, text)
      ensures stored == old(stored) + ColumnTexts(schema, rb, i, text)
    {
      var field := schema[i];
      var column := rb.byName[i];
      calls := [];
      var s := 0;
      while s < rb.numRows
        invariant s <= rb.numRows
        invariant calls == RowCalls(schema, rb, i, s, text)
        invariant stored == old(stored) + ColumnTexts(schema, rb, i, text)[..s]
      {
        stored := stored + [text(field, column, s)];
        RowStep(schema, rb, i, s, text);
        var cell := stored[|stored| - 1];
        var call := if i == 0 then InsertItem(s, cell) else SetItem(s, i, cell);
        calls := calls + [call];
        s := s + 1;
      }
      assert ColumnTexts(schema, rb, i, text)[..rb.numRows] == ColumnTexts(schema, rb, i, text);
    }

    /** IPreviewHandler::Unload: forgets the path, destroys the dialog and frees every stored string. */
    method Unload() returns (hr: HResult)
      modifies this
      ensures Valid()
      ensures hr == S_OK && path == None && preview == None && stored == []
      ensures parent == old(parent) && rcParent == old(rcParent)
    {
      if path.Some? {
        path := None;
      }
      if preview.Some? {
        preview := None;
      }
      stored := [];
      hr := S_OK;
    }
  }
}
