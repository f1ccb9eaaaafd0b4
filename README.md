# Recipe preview handler, modelled in Dafny

`RecipePreviewHandler` is a Windows shell preview handler for Apache Arrow IPC
files. The shell hands it a file path (`Initialize`), a parent window and
rectangle (`SetWindow`, `SetRect`), then asks it to show the file
(`DoPreview`) and later to let go of it (`Unload`). `DoPreview` opens the
file with Arrow, creates a dialog, and fills the dialog's list view:

- one right-aligned column per schema field, titled with the field's name;
- then, batch after batch, field after field and row after row, the text of
  every value (`asStr`).

It labels the dialog with the field count and the reader's row count, and
titles it with the path. Every string it hands to the list view and to the
two count labels is first duplicated into the handler's `stored` vector,
which `Unload` frees; the title label is given the path itself.

The model has these modules:

- `Status`: HRESULTs as unsigned 32-bit values, `SUCCEEDED`, and
  `HRESULT_FROM_WIN32`.
- `Decimal`: the decimal text a wide string stream writes for an integer,
  with a parser used to state that the text gives the value back.
- `Arrow`: what the Arrow reader hands the handler, as values. This covers
  element types, arrays, record batches (with the result of
  `GetColumnByName` per field), the file, and the ways opening it can fail.
  It also defines when a value can be read without dereferencing a null or
  mistyped array.
- `Stringify`: `asStr`, and the truncation at the first NUL that `.c_str()`
  imposes.
- `ListView`: the list-view calls the handler makes, the strings they point
  at, and the content the calls build under the control's documented
  insert-and-shift behaviour.
- `Materialize`: specification functions for the sequence of list-view calls
  `DoPreview` makes and the strings it stores. Lemmas state the order of the
  calls, that every string handed over is stored, how many strings are
  stored, and the table the list view ends up showing.
- `PreviewHandler`: the handler as a class.
  - Its fields are `path`, `parent`, `rcParent`, `preview` (the dialog, with
    its sizes, title, list-view calls and labels) and `stored`.
  - Its methods are the COM entry points (`Initialize`, `SetWindow`,
    `SetRect`, `DoPreview`, `Unload`), each stating the whole new state, and
    `DoPreview`'s loops (`Populate` down to `FillColumn`), each proved
    against the `Materialize` function that gives its calls and stored
    strings.
  - `Valid()` is kept by the entry points and by `Populate`: a dialog exists
    only for a path, and `stored` holds exactly the strings the dialog's
    list view and count labels point at. The loop methods below `Populate`
    change only `stored` and state it outright instead.

Some consequences of the code that are easy to miss:

- `Initialize` rejects only a null path; an empty path is accepted.
- Later batches do not overwrite earlier ones in the list view. Every batch
  inserts its rows at indices 0, 1, …, which pushes the earlier batches down. The final
  table therefore holds all batches, the last one on top
  (`Materialize.RenderMaterialized`, `Materialize.StackedAt`).
- When `CreateDialog` fails and `GetLastError()` is 0, `HRESULT_FROM_WIN32(0)`
  is `S_OK`. `DoPreview` then returns `S_OK` without a dialog
  (`Status.FromWin32`, `PreviewHandler.RecipePreviewHandler.DoPreview`).
- Names and string values are written through `.c_str()`, so each is cut at
  its first NUL character (`Stringify.UpToNul`).
- `HALF_FLOAT` values are written as the raw 16-bit pattern Arrow's
  half-float array returns, not as a floating-point number.

## Model

| member | source | states |
|---|---|---|
| PreviewHandler.RectWidth | cppShellExtPreviewHandler/RecipePreviewHandler.cpp:50-53 | left edge plus width is the right edge |
| PreviewHandler.RectHeight | cppShellExtPreviewHandler/RecipePreviewHandler.cpp:55-58 | top edge plus height is the bottom edge |
| PreviewHandler.Sized | cppShellExtPreviewHandler/RecipePreviewHandler.cpp:238-250 | a resized dialog takes the rectangle's width and height; its list view is 25 narrower and 25 shorter; parent, title, list content and labels are kept |
| PreviewHandler.RecipePreviewHandler.constructor | cppShellExtPreviewHandler/RecipePreviewHandler.cpp:61-65 | a new handler has no path, no parent, no dialog and an empty store, and is valid |
| PreviewHandler.RecipePreviewHandler.Initialize | cppShellExtPreviewHandler/RecipePreviewHandler.cpp:134-151 | a null path gives E_INVALIDARG and changes nothing; any other path replaces the stored one and gives S_OK; the dialog and store are untouched |
| PreviewHandler.RecipePreviewHandler.SetWindow | cppShellExtPreviewHandler/RecipePreviewHandler.cpp:160-177 | always S_OK; only a non-null window together with a non-null rectangle are cached, and an existing dialog is re-parented and resized (its list view keeps its size) |
| PreviewHandler.RecipePreviewHandler.SetRect | cppShellExtPreviewHandler/RecipePreviewHandler.cpp:232-254 | a null rectangle gives E_INVALIDARG and changes nothing; otherwise the rectangle is cached and an existing dialog and its list view are resized |
| PreviewHandler.RecipePreviewHandler.DoPreview | cppShellExtPreviewHandler/RecipePreviewHandler.cpp:300-420 | E_FAIL and no change with a dialog already shown, with no path, or when the file system, the input file or the IPC reader cannot be had; a failed CreateDialog gives HRESULT_FROM_WIN32 of the last error and no dialog; on success S_OK, a dialog sized to the parent rectangle and titled with the path, whose list view received exactly the header and cell calls of `MaterializeCalls` and whose labels hold the field count and row count, and the store grew by exactly `PreviewTexts`; the handler stays valid |
| PreviewHandler.RecipePreviewHandler.Populate | cppShellExtPreviewHandler/RecipePreviewHandler.cpp:322-418 | once the dialog exists: it is sized, titled, filled and labelled as above, and the store grows by exactly the strings its list view and count labels point at |
| PreviewHandler.RecipePreviewHandler.FillAndCount | cppShellExtPreviewHandler/RecipePreviewHandler.cpp:353-416 | the list-view calls are `MaterializeCalls`; the two labels are the decimal field count and row count; the store grows by the strings of the calls followed by the two labels |
| PreviewHandler.RecipePreviewHandler.FillList | cppShellExtPreviewHandler/RecipePreviewHandler.cpp:353-401 | the header loop and then the batch loop make exactly `MaterializeCalls`, storing the names and then every cell text in loop order |
| PreviewHandler.RecipePreviewHandler.InsertHeaders | cppShellExtPreviewHandler/RecipePreviewHandler.cpp:353-370 | one InsertColumn (name up to NUL, width 100, right-aligned) and one autosize per field, in schema order; the store grows by the names |
| PreviewHandler.RecipePreviewHandler.FillBatches | cppShellExtPreviewHandler/RecipePreviewHandler.cpp:376-401 | every batch in file order, with calls and stored texts those of `BatchCalls` and `BatchTexts` |
| PreviewHandler.RecipePreviewHandler.FillBatch | cppShellExtPreviewHandler/RecipePreviewHandler.cpp:380-398 | every field of one batch in schema order, with calls and stored texts those of `FieldCalls` and `FieldTexts` |
| PreviewHandler.RecipePreviewHandler.FillColumn | cppShellExtPreviewHandler/RecipePreviewHandler.cpp:383-396 | for each row s of the batch, the value's text is stored, then inserted as item s for the first field or set as sub-item i of item s for field i |
| PreviewHandler.RecipePreviewHandler.Unload | cppShellExtPreviewHandler/RecipePreviewHandler.cpp:426-445 | always S_OK; path and dialog gone, store emptied, parent and rectangle kept; valid afterwards whatever the state before |
| Status.FromWin32 | cppShellExtPreviewHandler/RecipePreviewHandler.cpp:324-329 | a code that is 0 or already negative as a signed 32-bit value is returned unchanged, so 0 gives S_OK; the result signals success exactly when the code is 0; a failure keeps the code's low 16 bits, under facility 7 (0x8007) for a positive code |
| Decimal.IntToDecimal | cppShellExtPreviewHandler/RecipePreviewHandler.cpp:403-406 | the stream's text for an integer is non-empty, starts with '-' exactly for negatives, and is all digits otherwise |
| Decimal.IntRoundTrip | cppShellExtPreviewHandler/RecipePreviewHandler.cpp:403-406 | the decimal text of every integer parses back to that integer |
| Decimal.DecimalInjective | cppShellExtPreviewHandler/RecipePreviewHandler.cpp:403-406 | two integers with the same decimal text are equal |
| Stringify.UpToNul | cppShellExtPreviewHandler/RecipePreviewHandler.cpp:290 | the text written through `.c_str()` is the longest NUL-free prefix of the string, the whole string when it holds no NUL |
| Stringify.AsStr | cppShellExtPreviewHandler/RecipePreviewHandler.cpp:262-295 | integer types give decimal text that reads back as the value; HALF_FLOAT gives decimal text of its raw 16-bit pattern; FLOAT and DOUBLE give the platform's float text; STRING gives the value cut at its first NUL; every other type gives "-" |
| Stringify.Shown | cppShellExtPreviewHandler/RecipePreviewHandler.cpp:387 | the cell text used for every readable value is `asStr` of that value |
| ListView.CallTexts | cppShellExtPreviewHandler/RecipePreviewHandler.cpp:361-395 | every insert or set call hands the control exactly one string; an autosize hands none |
| ListView.TextsAppend | cppShellExtPreviewHandler/RecipePreviewHandler.cpp:364 | the strings of two call sequences in a row are the strings of each, in order |
| ListView.Apply | cppShellExtPreviewHandler/RecipePreviewHandler.cpp:392-395 | an item insertion adds exactly one item and every other call keeps the number of items; a column insertion adds one column and every other call keeps the column count |
| ListView.RenderCounts | cppShellExtPreviewHandler/RecipePreviewHandler.cpp:367-395 | `Render`, the control's content after a sequence of calls: one more item per item insertion and one more column per column insertion, whatever the calls |
| ListView.RenderAppend | cppShellExtPreviewHandler/RecipePreviewHandler.cpp:376-401 | the content after two call sequences is that of the second applied to the content after the first |
| Materialize.CellCall | cppShellExtPreviewHandler/RecipePreviewHandler.cpp:387-395 | the call for field i at row s targets item s with the cell's text; it inserts the item exactly when i is 0 and otherwise sets sub-item i |
| Materialize.HeaderCalls | cppShellExtPreviewHandler/RecipePreviewHandler.cpp:356-370 | the header loop over k fields makes 2k calls |
| Materialize.HeaderCallsAt | cppShellExtPreviewHandler/RecipePreviewHandler.cpp:361-369 | call 2i inserts column i with field i's name, width 100, right-aligned; call 2i+1 autosizes column i |
| Materialize.RowCalls | cppShellExtPreviewHandler/RecipePreviewHandler.cpp:385-396 | the row loop over k rows of a field makes k calls, call s being given by `RowCallsAt` |
| Materialize.RowCallsAt | cppShellExtPreviewHandler/RecipePreviewHandler.cpp:385-396 | row loop call s is the cell call for row s |
| Materialize.FieldCallsAt | cppShellExtPreviewHandler/RecipePreviewHandler.cpp:381-398 | in one batch, the call for field i and row s comes at position i × rows + s |
| Materialize.FieldCallsLength | cppShellExtPreviewHandler/RecipePreviewHandler.cpp:381-398 | `FieldCalls`, the field loop of one batch: j fields make j × rows calls |
| Materialize.BatchCallsLength | cppShellExtPreviewHandler/RecipePreviewHandler.cpp:376-401 | `BatchCalls`, the batch loop: one call per cell of the batches handled so far |
| Materialize.MaterializeCallsLength | cppShellExtPreviewHandler/RecipePreviewHandler.cpp:353-401 | `MaterializeCalls`, every list-view call of DoPreview: two per field, then fields × total rows |
| Materialize.HeaderTexts | cppShellExtPreviewHandler/RecipePreviewHandler.cpp:358-364 | the strings the header calls point at are exactly the stored names |
| Materialize.RowTexts | cppShellExtPreviewHandler/RecipePreviewHandler.cpp:387-389 | the strings a row loop hands the control are the cell texts row by row |
| Materialize.FieldTextsHanded | cppShellExtPreviewHandler/RecipePreviewHandler.cpp:381-398 | the strings a batch's calls point at are exactly the texts stored for that batch |
| Materialize.BatchTextsHanded | cppShellExtPreviewHandler/RecipePreviewHandler.cpp:376-401 | the strings all batch calls point at are exactly the texts stored for all batches |
| Materialize.PreviewTextsHanded | cppShellExtPreviewHandler/RecipePreviewHandler.cpp:353-416 | what a successful DoPreview stores is exactly what its list-view calls and its two labels point at, in order |
| Materialize.FieldTextsCount | cppShellExtPreviewHandler/RecipePreviewHandler.cpp:381-398 | j fields of a batch store j × rows texts |
| Materialize.BatchTextsCount | cppShellExtPreviewHandler/RecipePreviewHandler.cpp:376-401 | the batches store one text per cell |
| Materialize.CellsIsProduct | cppShellExtPreviewHandler/RecipePreviewHandler.cpp:376-401 | the cells of the first r batches number the field count times their total rows |
| Materialize.StoredGrowth | cppShellExtPreviewHandler/RecipePreviewHandler.cpp:353-416 | `PreviewTexts`, what a successful DoPreview stores: it stores fields + fields × rows + 2 strings: first the names, last the field count and the row count as decimal text that reads back as those numbers |
| Materialize.HeaderRender | cppShellExtPreviewHandler/RecipePreviewHandler.cpp:356-370 | the header loop adds one column per field and no items |
| Materialize.FirstFieldRender | cppShellExtPreviewHandler/RecipePreviewHandler.cpp:385-396 | the first field's row loop inserts the batch's rows above the existing items, each holding only its first cell |
| Materialize.LaterFieldRender | cppShellExtPreviewHandler/RecipePreviewHandler.cpp:385-396 | a later field's row loop sets its sub-item in each of the top rows and changes nothing else |
| Materialize.FieldsRender | cppShellExtPreviewHandler/RecipePreviewHandler.cpp:381-398 | the field loop of a batch puts the batch's rows, with their first j cells, above the existing items |
| Materialize.NextFieldRender | cppShellExtPreviewHandler/RecipePreviewHandler.cpp:385-396 | one more field's row loop adds that field's cell to each of the batch's rows |
| Materialize.BatchesRender | cppShellExtPreviewHandler/RecipePreviewHandler.cpp:376-401 | after r batches the list view shows their rows stacked, the latest batch on top |
| Materialize.RenderMaterialized | cppShellExtPreviewHandler/RecipePreviewHandler.cpp:353-401 | DoPreview's calls leave a list view with one column per field and every batch's rows stacked, last batch first |
| Materialize.StackedCount | cppShellExtPreviewHandler/RecipePreviewHandler.cpp:376-401 | the list view holds the total row count of the batches as items, or none when the schema is empty |
| Materialize.RowsLabelMatches | cppShellExtPreviewHandler/RecipePreviewHandler.cpp:376-416 | when `CountRows()` agrees with the batches and the schema has a field, the row-count label reads back as the number of items the list view shows |
| Materialize.RowsBetweenIsDifference | cppShellExtPreviewHandler/RecipePreviewHandler.cpp:376-401 | rows of the batches after batch q, up to r, are the difference of the running row counts |
| Materialize.StackedAt | cppShellExtPreviewHandler/RecipePreviewHandler.cpp:376-401 | row s of batch q is shown at item (rows of the later batches) + s, holding the text of each of its fields |

## Left out

- COM plumbing is not modelled: `QueryInterface`, `AddRef`, `Release`, the DLL reference count, and the destructor.
- The other entry points are not modelled, because they do not touch the preview's content: `SetFocus`, `QueryFocus`, `TranslateAccelerator`, `GetWindow`, `ContextSensitiveHelp`, `SetSite`, `GetSite`, and the visuals setters (which always return S_OK).
- Windowing is reduced to the sizes each window is given. Positions, `ShowWindow`, and the dialog resource are not modelled.
- The Arrow library is not modelled. What opening the file gives (`Source`), the decoded batches and `CountRows()` are inputs. So are the result of `CreateDialog` and `GetLastError()`.
- `asStr` formatting of FLOAT and DOUBLE values is the parameter `fmt`. Floating-point text is not modelled.
- Strings and names are sequences of characters. The widening of each UTF-8 byte into one wide character by the stream is not modelled.
- Converting the path with `CW2A` and the `grfMode` argument are not modelled. The `std::cerr` logging is not modelled either.
- Allocation failure of `StrDup` or `_wcsdup` is not modelled, and neither is freeing strings.
- PreviewHandler.RecipePreviewHandler.DoPreview: requires the opened file to be readable. The source crashes instead of returning in these cases: in a batch that has rows, `GetColumnByName` gives a null or mistyped array for a formatted field or an array with fewer values than rows; or `ReadRecordBatch` or `CountRows` fails. A batch without rows is accepted whatever its arrays, as in the source.
- Stringify.Shown: for a value that cannot be read, the text is the empty string. `asStr` would dereference a null or mistyped array there. No caller reaches that case.
- PreviewHandler.RectWidth: is unbounded. A 32-bit `int` overflow of `right - left` is not modelled. The same holds for PreviewHandler.RectHeight and PreviewHandler.Sized.
- PreviewHandler.RecipePreviewHandler.constructor: `m_rcParent` is left uninitialised by the source. The model starts it as the all-zero rectangle.
- ListView.Apply: gives the list view's documented insert-and-shift behaviour. It does not model sorting, owner data or item limits.
- Materialize.StackedCount: uses the batches' own row counts. That these equal the reader's `CountRows()` is the predicate `Arrow.CountConsistent`, which the source takes on trust; under it, `Materialize.RowsLabelMatches` ties the row-count label to the items shown.
