/** `convert_result` and `to_excel_serial` of src/functions/exec/result.py:
    map the value a user function left in the global `result` to a grid of
    spreadsheet scalars, or raise `ValueError` with a fixed message. */
module ResultNormaliser {
  import opened Wrappers
  import opened PyValues

  const NoneMessage: string := "Your function returned None. If you wanted a blank cell, return an empty string ('') instead."
  const EmptyListMessage: string := "Result cannot be an empty list"
  const ScalarElementsMessage: string := "All elements must be scalar types (int, float, str, bool)"
  const Valid2DMessage: string := "Result must be a valid 2D list"
  const RowLengthMessage: string := "All rows must have the same length"
  const UnsupportedMessage: string := "Result must be a scalar or 2D list. Other types including dicts are not supported."
  /** What Python raises for `date - datetime`. */
  const DateMinusDateTimeMessage: string := "unsupported operand type(s) for -: 'datetime.date' and 'datetime.datetime'"

  /** The spreadsheet serial number of 1970-01-01. */
  const EpochSerial: int := 25569

  /** `to_excel_serial`: subtracts `datetime(1970, 1, 1)` and keeps the whole
      days. A plain `date` cannot be subtracted from a `datetime`, so Python
      raises `TypeError` for it. */
  function ToExcelSerial(d: PyValue): (r: PyResult<int>)
    requires IsDateLike(d)
    ensures d.VDate? ==> r == Raised(TypeError(DateMinusDateTimeMessage))
  {
    if d.VDateTime? then Ok(d.days + EpochSerial)
    else Raised(TypeError(DateMinusDateTimeMessage))
  }

  /** Midnight of 1970-01-01 is serial 25569. */
  lemma EpochMidnight()
    ensures ToExcelSerial(VDateTime(0, 0)) == Ok(25569)
  {
  }

  /** The serial ignores the time of day and moves one for one with the day. */
  lemma SerialCountsWholeDays(a: PyValue, b: PyValue)
    requires a.VDateTime? && b.VDateTime?
    ensures ToExcelSerial(a).Ok? && ToExcelSerial(b).Ok?
    ensures ToExcelSerial(b).value - ToExcelSerial(a).value == b.days - a.days
  {
  }

  /** What a cell becomes once its datetimes are converted. */
  function CellValue(x: PyValue): PyValue {
    if x.VDateTime? then VInt(x.days + EpochSerial) else x
  }

  /** A cell the list branch accepts: a scalar, or a datetime that becomes one. */
  predicate IsCellOk(x: PyValue) {
    IsScalar(x) || x.VDateTime?
  }

  /** The comprehension `[to_excel_serial(x) if isinstance(x, (datetime, date)) else x for x in xs]`,
      which raises at the first plain date. */
  function ConvertDates(xs: seq<PyValue>): (r: PyResult<seq<PyValue>>)
    ensures r.Ok? <==> forall k :: 0 <= k < |xs| ==> !xs[k].VDate?
    ensures r.Ok? ==> |r.value| == |xs| && forall k :: 0 <= k < |xs| ==> r.value[k] == CellValue(xs[k])
    ensures r.Raised? ==> r.error == TypeError(DateMinusDateTimeMessage)
  {
    if xs == [] then Ok([])
    else
      var head: PyResult<PyValue> :=
        if IsDateLike(xs[0]) then
          (match ToExcelSerial(xs[0])
           case Ok(n) => Ok(VInt(n))
           case Raised(e) => Raised(e))
        else Ok(xs[0]);
      match head
      case Raised(e) => Raised(e)
      case Ok(c) =>
        match ConvertDates(xs[1..])
        case Raised(e) => Raised(e)
        case Ok(cs) => Ok([c] + cs)
  }

  /** The 2-D comprehension: every row converted in order. */
  function ConvertRowDates(rows: seq<PyValue>): (r: PyResult<seq<seq<PyValue>>>)
    requires forall k :: 0 <= k < |rows| ==> rows[k].VList?
    ensures r.Ok? <==> forall k, j :: 0 <= k < |rows| && 0 <= j < |rows[k].items| ==> !rows[k].items[j].VDate?
    ensures r.Ok? ==> |r.value| == |rows|
    ensures r.Ok? ==> forall k :: 0 <= k < |rows| ==> |r.value[k]| == |rows[k].items|
    ensures r.Ok? ==> forall k, j :: 0 <= k < |rows| && 0 <= j < |rows[k].items| ==> r.value[k][j] == CellValue(rows[k].items[j])
    ensures r.Raised? ==> r.error == TypeError(DateMinusDateTimeMessage)
  {
    if rows == [] then Ok([])
    else
      match ConvertDates(rows[0].items)
      case Raised(e) => Raised(e)
      case Ok(first) =>
        match ConvertRowDates(rows[1..])
        case Raised(e) => Raised(e)
        case Ok(rest) =>
          var out := [first] + rest;
          assert forall k :: 1 <= k < |rows| ==> out[k] == rest[k - 1] && rows[k] == rows[1..][k - 1];
          Ok(out)
  }

  predicate NoLists(items: seq<PyValue>) {
    forall k :: 0 <= k < |items| ==> !items[k].VList?
  }

  predicate AllLists(items: seq<PyValue>) {
    forall k :: 0 <= k < |items| ==> items[k].VList?
  }

  /** Every row has the length of row 0. */
  predicate SameWidth(items: seq<PyValue>)
    requires AllLists(items) && items != []
  {
    forall k :: 0 <= k < |items| ==> |items[k].items| == |items[0].items|
  }

  /** The shapes the list branch accepts: a flat list, or a rectangular list of lists. */
  predicate IsShaped(items: seq<PyValue>) {
    items != [] && (NoLists(items) || (AllLists(items) && SameWidth(items)))
  }

  /** `P` holds of every cell of a shaped list (its elements when flat). */
  predicate EveryCell(items: seq<PyValue>, P: PyValue -> bool)
    requires IsShaped(items)
  {
    if NoLists(items) then forall k :: 0 <= k < |items| ==> P(items[k])
    else forall k, j :: 0 <= k < |items| && 0 <= j < |items[k].items| ==> P(items[k].items[j])
  }

  predicate NotPlainDate(x: PyValue) { !x.VDate? }

  /** The list branch of `convert_result` (result.py:68-95), stated by what it
      accepts, what it returns and which check reports a rejection. */
  function ConvertList(items: seq<PyValue>): (r: PyResult<seq<seq<PyValue>>>)
    ensures r.Ok? <==> IsShaped(items) && EveryCell(items, IsCellOk)
    ensures r.Ok? && NoLists(items) ==> r.value == [seq(|items|, k requires 0 <= k < |items| => CellValue(items[k]))]
    ensures r.Ok? && !NoLists(items) ==> |r.value| == |items|
    ensures r.Ok? && !NoLists(items) ==> forall k :: 0 <= k < |items| ==> |r.value[k]| == |items[k].items|
    ensures r.Ok? && !NoLists(items) ==>
      forall k, j :: 0 <= k < |items| && 0 <= j < |items[k].items| ==> r.value[k][j] == CellValue(items[k].items[j])
    ensures items == [] ==> r == Raised(ValueError(EmptyListMessage))
    ensures !NoLists(items) && !AllLists(items) ==> r == Raised(ValueError(Valid2DMessage))
    ensures items != [] && AllLists(items) && !SameWidth(items) ==> r == Raised(ValueError(RowLengthMessage))
    ensures IsShaped(items) && !EveryCell(items, NotPlainDate) ==> r == Raised(TypeError(DateMinusDateTimeMessage))
    ensures IsShaped(items) && EveryCell(items, NotPlainDate) && !EveryCell(items, IsCellOk)
            ==> r == Raised(ValueError(ScalarElementsMessage))
  {
    if items == [] then Raised(ValueError(EmptyListMessage))
    else if NoLists(items) then
      match ConvertDates(items)
      case Raised(e) => Raised(e)
      case Ok(row) =>
        assert row == seq(|items|, k requires 0 <= k < |items| => CellValue(items[k]));
        if forall k :: 0 <= k < |row| ==> IsScalar(row[k]) then Ok([row])
        else Raised(ValueError(ScalarElementsMessage))
    else if !AllLists(items) then Raised(ValueError(Valid2DMessage))
    else if !SameWidth(items) then Raised(ValueError(RowLengthMessage))
    else
      match ConvertRowDates(items)
      case Raised(e) => Raised(e)
      case Ok(rows) =>
        if forall k, j :: 0 <= k < |rows| && 0 <= j < |rows[k]| ==> IsScalar(rows[k][j]) then Ok(rows)
        else Raised(ValueError(ScalarElementsMessage))
  }

  /** `handle_pandas_types`: a DataFrame is exported row by row, a Series as
      one element per row; anything else is not handled. */
  function PandasRows(v: PyValue): (r: Option<seq<seq<PyValue>>>)
    ensures r.Some? <==> v.VDataFrame? || v.VSeries?
    ensures v.VSeries? ==> |r.value| == |v.column|
    ensures v.VSeries? ==> forall k :: 0 <= k < |v.column| ==> r.value[k] == [v.column[k]]
  {
    match v
    case VDataFrame(values) => Some(values)
    case VSeries(column) => Some(seq(|column|, k requires 0 <= k < |column| => [column[k]]))
    case _ => None
  }

  /** `handle_numpy_types`: rank 0 becomes `[[item]]`, rank 1 a single row,
      higher ranks the nested object list as it is; numpy scalars `[[item]]`. */
  function NumpyRows(v: PyValue): (r: Option<seq<seq<PyValue>>>)
    ensures r.Some? <==> v.VNdArray0? || v.VNdArray1? || v.VNdArrayN? || v.VNpScalar?
    ensures v.VNdArray1? ==> r.value == [v.elements]
    ensures v.VNdArray0? ==> r.value == [[v.item]]
    ensures v.VNpScalar? ==> r.value == [[v.value]]
  {
    match v
    case VNdArray0(item) => Some([[item]])
    case VNdArray1(elements) => Some([elements])
    case VNdArrayN(nested) => Some(nested)
    case VNpScalar(value, _) => Some([[value]])
    case _ => None
  }

  /** `convert_result` of result.py. `pandasLoaded` and `numpyLoaded` stand
      for `'pandas' in sys.modules` and `'numpy' in sys.modules`. */
  function ConvertResult(v: PyValue, pandasLoaded: bool, numpyLoaded: bool): (r: PyResult<seq<seq<PyValue>>>)
    ensures v.VNone? ==> r == Raised(ValueError(NoneMessage))
    ensures pandasLoaded && PandasRows(v).Some? ==> r == Ok(PandasRows(v).value)
    ensures !(pandasLoaded && PandasRows(v).Some?) && numpyLoaded && NumpyRows(v).Some? ==> r == Ok(NumpyRows(v).value)
    ensures !IsLibraryValue(v) && v.VDateTime? ==> r == Ok([[VInt(v.days + EpochSerial)]])
    ensures !IsLibraryValue(v) && v.VDate? ==> r == Raised(TypeError(DateMinusDateTimeMessage))
    ensures !IsLibraryValue(v) && IsScalar(v) ==> r == Ok([[v]])
    ensures v.VList? ==> r == ConvertList(v.items)
    ensures (v.VTuple? || v.VDict? || v.VOther?) ==> r == Raised(ValueError(UnsupportedMessage))
  {
    if v.VNone? then Raised(ValueError(NoneMessage))
    else if pandasLoaded && PandasRows(v).Some? then Ok(PandasRows(v).value)
    else if numpyLoaded && NumpyRows(v).Some? then Ok(NumpyRows(v).value)
    else if IsDateLike(v) then
      match ToExcelSerial(v)
      case Ok(n) => Ok([[VInt(n)]])
      case Raised(e) => Raised(e)
    else if IsScalar(v) then Ok([[v]])
    else if v.VList? then ConvertList(v.items)
    else Raised(ValueError(UnsupportedMessage))
  }

  /** A well-formed grid: at least one row, all rows as long as the first, every cell a scalar. */
  predicate IsGrid(rows: seq<seq<PyValue>>) {
    |rows| >= 1
    && (forall k :: 0 <= k < |rows| ==> |rows[k]| == |rows[0]|)
    && (forall k, j :: 0 <= k < |rows| && 0 <= j < |rows[k]| ==> IsScalar(rows[k][j]))
  }

  /** A grid handed back as a list of lists is returned unchanged, whatever
      libraries are loaded. */
  lemma {:induction false} GridIsFixedPoint(rows: seq<seq<PyValue>>, pandasLoaded: bool, numpyLoaded: bool)
    requires IsGrid(rows)
    ensures ConvertResult(GridValue(rows), pandasLoaded, numpyLoaded) == Ok(rows)
  {
    var items := GridValue(rows).items;
    assert items[0] == VList(rows[0]);
    assert !NoLists(items) && AllLists(items) && SameWidth(items);
    assert EveryCell(items, IsCellOk);
    var r := ConvertList(items);
    assert |r.value| == |rows|;
    forall k | 0 <= k < |rows|
      ensures r.value[k] == rows[k]
    {
      assert items[k] == VList(rows[k]);
      forall j | 0 <= j < |rows[k]| ensures r.value[k][j] == rows[k][j] {
        assert IsScalar(rows[k][j]);
      }
    }
    assert r.value == rows;
  }

  /** Whatever the generic path accepts is a well-formed grid, so a second
      normalisation of its output changes nothing. */
  lemma {:induction false} NormalisedIsGrid(v: PyValue, pandasLoaded: bool, numpyLoaded: bool)
    requires !IsLibraryValue(v)
    requires ConvertResult(v, pandasLoaded, numpyLoaded).Ok?
    ensures IsGrid(ConvertResult(v, pandasLoaded, numpyLoaded).value)
    ensures ConvertResult(GridValue(ConvertResult(v, pandasLoaded, numpyLoaded).value), pandasLoaded, numpyLoaded)
            == ConvertResult(v, pandasLoaded, numpyLoaded)
  {
    var g := ConvertResult(v, pandasLoaded, numpyLoaded).value;
    if v.VList? {
      var items := v.items;
      if NoLists(items) {
        forall j | 0 <= j < |g[0]| ensures IsScalar(g[0][j]) {
          assert IsCellOk(items[j]);
        }
      } else {
        forall k, j | 0 <= k < |g| && 0 <= j < |g[k]| ensures IsScalar(g[k][j]) {
          assert IsCellOk(items[k].items[j]);
        }
      }
    }
    assert IsGrid(g);
    GridIsFixedPoint(g, pandasLoaded, numpyLoaded);
  }

  /** Rows of length zero are accepted: `[[]]` comes back unchanged. */
  lemma EmptyRowAccepted()
    ensures ConvertResult(VList([VList([])]), false, false) == Ok([[]])
  {
    var items := [VList([])];
    assert ConvertDates(items[0].items) == Ok([]);
    assert ConvertRowDates(items[1..]) == Ok([]);
    var rr := ConvertRowDates(items);
    assert rr.Ok? && |rr.value| == 1 && |rr.value[0]| == 0;
    assert rr.value == [[]];
    assert ConvertList(items) == Ok([[]]);
  }
}
