/** The boundary to the OCI8 layer (Jpina\Oci8), which is not part of this model. What a native call
    returns is an input of the model: an `Answer` per call, an error record, a field description, or
    the stream of rows a native cursor delivers. The row shapes below are those OCI8's fetch modes
    document. */
module Native {
  import opened Optional
  import opened Php

  /** What a native call gave back, or that it threw an exception. */
  datatype Answer<+T> = Returned(value: T) | Raised

  /** The record `getError()` returns when the native layer holds an error. */
  datatype NativeError = NativeError(code: int, message: string)

  /** A PHP array key. */
  datatype ArrayKey = IntKey(i: int) | StrKey(s: string)

  /** One column of a fetched row: its (upper-case) name and its value. */
  datatype Column = Column(name: string, value: Value)

  /** A row as the native cursor holds it, columns in select-list order. */
  type Row = seq<Column>

  /** OCI8's fetch-array modes. */
  datatype OciMode = OciAssoc | OciNum | OciBoth

  /** The commit flag handed to the native `execute`. */
  datatype CommitMode = NoAutoCommit | CommitOnSuccess

  /** The SQLT_* bind types the statement may hand to the native bind. */
  datatype Sqlt = SqltBol | SqltInt | SqltClob | SqltChr

  /** A column description from `getField()` after a describe-only execution. */
  datatype Field = Field(name: string, rawType: int, declaredType: string, size: int, precision: int, scale: int)

  /** What a fetch gives back: PHP's `false` or `true`, an array keyed as the fetch mode says, or an
      object with one property per column. */
  datatype Fetched = FalseResult | TrueResult | ArrayResult(row: map<ArrayKey, Value>) | ObjectResult(properties: map<string, Value>)

  /** What the native `execute` reports: success, and the rows its cursor then delivers. */
  datatype Executed = Executed(ok: bool, rows: seq<Row>)

  /** The row keyed by column name; a later column of the same name wins, as in a PHP array. A NULL
      column gets no element unless `withNulls` holds. */
  function ByName(row: Row, withNulls: bool): map<ArrayKey, Value>
  {
    if row == [] then map[]
    else
      var init := ByName(row[..|row| - 1], withNulls);
      var last := row[|row| - 1];
      if withNulls || last.value != Null then init[StrKey(last.name) := last.value] else init
  }

  /** The row keyed by 0-based column number. A NULL column gets no element unless `withNulls` holds. */
  function ByNumber(row: Row, withNulls: bool): map<ArrayKey, Value>
  {
    if row == [] then map[]
    else
      var init := ByNumber(row[..|row| - 1], withNulls);
      var last := row[|row| - 1];
      if withNulls || last.value != Null then init[IntKey(|row| - 1) := last.value] else init
  }

  /** The row as `oci_fetch_array` shapes it for a fetch-array mode without OCI_RETURN_NULLS: a NULL
      column has no element, the others keep their number or name; OCI_BOTH holds both kinds of key. */
  function Shape(mode: OciMode, row: Row): map<ArrayKey, Value>
  {
    match mode
    case OciAssoc => ByName(row, false)
    case OciNum => ByNumber(row, false)
    case OciBoth => ByNumber(row, false) + ByName(row, false)
  }

  /** The row as a fetched object: one property per column name, NULL columns included. */
  function Properties(row: Row): map<string, Value>
  {
    map k | k in ByName(row, true) && k.StrKey? :: k.s := ByName(row, true)[k]
  }

  /** A numerically keyed row holds exactly the keys of the columns 0 .. |row|-1 it keeps (all of
      them with `withNulls`, else the non-NULL ones), each with its column's value. */
  lemma {:induction false} ByNumberAt(row: Row, withNulls: bool, c: int)
    ensures IntKey(c) in ByNumber(row, withNulls) <==> 0 <= c < |row| && (withNulls || row[c].value != Null)
    ensures IntKey(c) in ByNumber(row, withNulls) ==> ByNumber(row, withNulls)[IntKey(c)] == row[c].value
    ensures forall k :: k in ByNumber(row, withNulls) ==> k.IntKey?
    decreases |row|
  {
    if row != [] {
      var init := row[..|row| - 1];
      ByNumberAt(init, withNulls, c);
      if 0 <= c < |init| {
        assert init[c] == row[c];
      }
    }
  }

  /** A name-keyed row holds only string keys. */
  lemma {:induction false} ByNameKeys(row: Row, withNulls: bool)
    ensures forall k :: k in ByName(row, withNulls) ==> k.StrKey?
    decreases |row|
  {
    if row != [] {
      ByNameKeys(row[..|row| - 1], withNulls);
    }
  }

  /** A name-keyed row with NULL columns holds every column's name. */
  lemma {:induction false} ByNameKeepsNames(row: Row, c: int)
    requires 0 <= c < |row|
    ensures StrKey(row[c].name) in ByName(row, true)
    decreases |row|
  {
    if c < |row| - 1 {
      var init := row[..|row| - 1];
      assert init[c] == row[c];
      ByNameKeepsNames(init, c);
    }
  }

  /** In both shapes the numeric keys are the non-NULL numbered columns. */
  lemma BothHoldsNumbers(row: Row, c: int)
    ensures IntKey(c) in Shape(OciBoth, row) <==> 0 <= c < |row| && row[c].value != Null
    ensures IntKey(c) in Shape(OciBoth, row) ==> Shape(OciBoth, row)[IntKey(c)] == row[c].value
  {
    ByNumberAt(row, false, c);
    ByNameKeys(row, false);
  }
}
