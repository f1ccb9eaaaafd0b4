/**
 * What the Arrow IPC reader hands the preview handler, as plain values: the
 * schema, the decoded record batches, the reader's total row count, and the
 * outcome of opening the file. Decoding itself is not part of this model.
 */
module Arrow {
  import opened Wrappers

  /** The element types `asStr` distinguishes; Other stands for every other type id. */
  datatype ElementType =
    | UInt8 | Int8 | UInt16 | Int16 | UInt32 | Int32 | UInt64 | Int64
    | HalfFloat | Float | Double
    | Utf8
    | Other(id: nat)
  {
    predicate IsInteger() {
      UInt8? || Int8? || UInt16? || Int16? || UInt32? || Int32? || UInt64? || Int64?
    }

    predicate IsFloating() {
      HalfFloat? || Float? || Double?
    }

    /** Bound on the raw bit pattern of a floating-point type's values. */
    function BitLimit(): nat
      requires IsFloating()
    {
      match this
      case HalfFloat => 0x1_0000
      case Float => 0x1_0000_0000
      case _ => 0x1_0000_0000_0000_0000
    }

    /** One of the eleven numeric types or STRING: the types `asStr` reads a value of. */
    predicate Formatted() {
      !Other?
    }

    /** Smallest value of an integer type. */
    function MinValue(): int
      requires IsInteger()
    {
      match this
      case Int8 => -0x80
      case Int16 => -0x8000
      case Int32 => -0x8000_0000
      case Int64 => -0x8000_0000_0000_0000
      case _ => 0
    }

    /** Largest value of an integer type. */
    function MaxValue(): int
      requires IsInteger()
    {
      match this
      case UInt8 => 0xFF
      case Int8 => 0x7F
      case UInt16 => 0xFFFF
      case Int16 => 0x7FFF
      case UInt32 => 0xFFFF_FFFF
      case Int32 => 0x7FFF_FFFF
      case UInt64 => 0xFFFF_FFFF_FFFF_FFFF
      case _ => 0x7FFF_FFFF_FFFF_FFFF
    }
  }

  datatype Field = Field(name: string, elementType: ElementType)

  /**
   * A column of one record batch. Floating-point values are kept as their raw
   * bit patterns; how they are turned into text is not modelled.
   */
  datatype Array =
    | IntArray(ints: seq<int>)
    | FloatArray(bits: seq<nat>)
    | StringArray(strs: seq<string>)
    | OtherArray(length: nat)
  {
    function Length(): nat {
      match this
      case IntArray(xs) => |xs|
      case FloatArray(xs) => |xs|
      case StringArray(xs) => |xs|
      case OtherArray(n) => n
    }
  }

  /** The array is of the concrete class the element type casts it to, with values in range. */
  predicate Fits(t: ElementType, a: Array) {
    if t.IsInteger() then
      a.IntArray? && forall k :: 0 <= k < |a.ints| ==> t.MinValue() <= a.ints[k] <= t.MaxValue()
    else if t.IsFloating() then
      a.FloatArray? && forall k :: 0 <= k < |a.bits| ==> a.bits[k] < t.BitLimit()
    else if t.Utf8? then a.StringArray?
    else true
  }

  /**
   * A record batch: its row count, and for the i-th schema field what
   * `GetColumnByName(field->name())` returns (None for the null pointer Arrow
   * gives when the name is missing or ambiguous).
   */
  datatype RecordBatch = RecordBatch(numRows: nat, byName: seq<Option<Array>>)

  /** An opened IPC file: schema, record batches in file order, and `CountRows()`. */
  datatype ArrowFile = ArrowFile(schema: seq<Field>, batches: seq<RecordBatch>, totalRows: nat)

  /** What opening the stored path gives: a filesystem, an input file, then a reader. */
  datatype Source =
    | NoFileSystem
    | CannotOpenInput
    | NotAnArrowFile
    | Opened(file: ArrowFile)

  /**
   * Reading the value at `pos` through the cast the element type selects is
   * defined: nothing is read for the other types; for the formatted ones the
   * array pointer is not null, is of the matching class and holds `pos`.
   */
  predicate Readable(t: ElementType, a: Option<Array>, pos: nat) {
    t.Formatted() ==> a.Some? && Fits(t, a.value) && pos < a.value.Length()
  }

  /**
   * Every (field, row) value of the batch can be read. A batch without rows
   * never reads its arrays, so for it any array, even a null one, will do.
   */
  predicate BatchReadable(schema: seq<Field>, b: RecordBatch) {
    && |b.byName| == |schema|
    && forall i :: 0 <= i < |schema| ==>
         (schema[i].elementType.Formatted() && b.numRows > 0 ==>
            b.byName[i].Some? && Fits(schema[i].elementType, b.byName[i].value)
            && b.numRows <= b.byName[i].value.Length())
  }

  /** Every batch of the file can be read and displayed without a crash. */
  predicate FileReadable(f: ArrowFile) {
    forall r :: 0 <= r < |f.batches| ==> BatchReadable(f.schema, f.batches[r])
  }

  /** Rows in the first r batches. */
  function RowsUpTo(batches: seq<RecordBatch>, r: nat): nat
    requires r <= |batches|
  {
    if r == 0 then 0 else RowsUpTo(batches, r - 1) + batches[r - 1].numRows
  }

  /** The reader's row count agrees with its batches, as Arrow's CountRows promises. */
  predicate CountConsistent(f: ArrowFile) {
    f.totalRows == RowsUpTo(f.batches, |f.batches|)
  }
}
