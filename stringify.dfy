/** `asStr`: one value of a column as display text, chosen by the field's element type. */
module Stringify {
  import opened Wrappers
  import opened Decimal
  import opened Arrow

  /** The platform's text for a FLOAT or DOUBLE value, given its type and raw bits. */
  type FloatFormat = (ElementType, nat) -> string

  /**
   * A narrow string read through `.c_str()`: text stops at the first NUL
   * character.
   */
  function UpToNul(s: string): (r: string)
    ensures r <= s
    ensures '\0' !in r
    ensures |r| < |s| ==> s[|r|] == '\0'
    ensures '\0' !in s ==> r == s
  {
    if s == [] || s[0] == '\0' then [] else [s[0]] + UpToNul(s[1..])
  }

  /**
   * `asStr`: dispatches on the field's element type; the cast it makes reads
   * the value at `pos` only for the eleven numeric types and STRING. Integer
   * types give decimal text that reads back as the value; Arrow's half-float
   * arrays hand out the raw 16-bit pattern, which the stream writes as an
   * unsigned integer; FLOAT and DOUBLE give the platform's text; STRING gives
   * the value up to its first NUL character; every other type gives "-".
   */
  function AsStr(field: Field, column: Option<Array>, pos: nat, fmt: FloatFormat): (s: string)
    requires Readable(field.elementType, column, pos)
    ensures field.elementType.IsInteger() ==> ParseDecimal(s) == Some(column.value.ints[pos])
    ensures field.elementType.HalfFloat? ==>
              ParseDecimal(s) == Some(column.value.bits[pos] as int) && column.value.bits[pos] < 0x1_0000
    ensures field.elementType.Float? || field.elementType.Double? ==>
              s == fmt(field.elementType, column.value.bits[pos])
    ensures field.elementType.Utf8? ==> s == UpToNul(column.value.strs[pos])
    ensures field.elementType.Utf8? && '\0' !in column.value.strs[pos] ==> s == column.value.strs[pos]
    ensures !field.elementType.Formatted() ==> s == "-"
  {
    var t := field.elementType;
    if t.IsInteger() then
      IntRoundTrip(column.value.ints[pos]);
      IntToDecimal(column.value.ints[pos])
    else if t.HalfFloat? then
      IntRoundTrip(column.value.bits[pos]);
      IntToDecimal(column.value.bits[pos])
    else if t.IsFloating() then fmt(t, column.value.bits[pos])
    else if t.Utf8? then UpToNul(column.value.strs[pos])
    else "-"
  }

  /** Display text for the value of a field's column at a row. */
  type CellFormat = (Field, Option<Array>, nat) -> string

  /**
   * `asStr` with the platform's float formatting, as a value the list-view
   * model is parameterised by. Where the value cannot be read, `asStr`
   * dereferences a null or mistyped array; every caller rules that out first,
   * so the text given there is never used.
   */
  function Shown(fmt: FloatFormat): (text: CellFormat)
    ensures forall field: Field, column: Option<Array>, pos: nat :: Readable(field.elementType, column, pos) ==>
              text(field, column, pos) == AsStr(field, column, pos, fmt)
  {
    (field: Field, column: Option<Array>, pos: nat) =>
      if Readable(field.elementType, column, pos) then AsStr(field, column, pos, fmt) else ""
  }
}
