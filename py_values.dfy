/** Python values as the result normaliser and the argument unmarshaller see
    them. Library objects (pandas, numpy) are abstract shaped containers: the
    model only records what their `tolist()`-style exports produce. */
module PyValues {
  import opened Strings

  datatype PyValue =
    | VNone
    | VInt(i: int)
    /** A Python float; its payload is carried, never computed with. */
    | VFloat(f: real)
    | VStr(s: string)
    | VBool(b: bool)
    /** A `datetime.datetime`: `days` is the whole number of days from
        1970-01-01 00:00 (rounded down, as `timedelta.days` is) and
        `secondOfDay` the time of day. */
    | VDateTime(days: int, secondOfDay: nat)
    /** A plain `datetime.date`, `days` from 1970-01-01. */
    | VDate(days: int)
    | VList(items: seq<PyValue>)
    | VTuple(items: seq<PyValue>)
    | VDict(entries: seq<(PyValue, PyValue)>)
    /** A pandas DataFrame, by `result.values.tolist()` after its datetime
        columns were converted. */
    | VDataFrame(values: seq<seq<PyValue>>)
    /** A pandas Series, by `result.values.tolist()` after datetime conversion. */
    | VSeries(column: seq<PyValue>)
    /** numpy arrays of rank 0, 1 and at least 2; the last by the nested
        object list `np.array(result, dtype=object).tolist()` produces. */
    | VNdArray0(item: PyValue)
    | VNdArray1(elements: seq<PyValue>)
    | VNdArrayN(nested: seq<seq<PyValue>>)
    /** A numpy integer or floating scalar and its `.item()`; `isFloat64` is
        set for `np.float64`, which is a subclass of Python's `float`. */
    | VNpScalar(value: PyValue, isFloat64: bool)
    /** Any other object, such as a set, bytes or a user class. */
    | VOther(typeName: string)

  /** What `isinstance(x, (int, float, str, bool))` accepts: the four kinds,
      and `np.float64`, which subclasses `float`. */
  predicate IsScalar(v: PyValue) {
    v.VInt? || v.VFloat? || v.VStr? || v.VBool? || (v.VNpScalar? && v.isFloat64)
  }

  /** `isinstance(x, (datetime.datetime, datetime.date))`. */
  predicate IsDateLike(v: PyValue) {
    v.VDateTime? || v.VDate?
  }

  /** A value only a pandas or numpy handler recognises. */
  predicate IsLibraryValue(v: PyValue) {
    v.VDataFrame? || v.VSeries? || v.VNdArray0? || v.VNdArray1? || v.VNdArrayN? || v.VNpScalar?
  }

  /** Exceptions the modelled Python code raises. */
  datatype PyError = ValueError(message: string) | TypeError(message: string)

  /** A value, or the exception raised while computing it. */
  datatype PyResult<T> = Ok(value: T) | Raised(error: PyError)

  /** A Python list of rows, each row itself a list. */
  function GridValue(rows: seq<seq<PyValue>>): (v: PyValue)
    ensures v.VList? && |v.items| == |rows|
    ensures forall k :: 0 <= k < |rows| ==> v.items[k] == VList(rows[k])
  {
    VList(seq(|rows|, k requires 0 <= k < |rows| => VList(rows[k])))
  }

  /** The one-character strings `for c in s` yields. */
  function Chars(s: string): (r: seq<PyValue>)
    ensures |r| == |s| && forall k :: 0 <= k < |s| ==> r[k] == VStr([s[k]])
  {
    seq(|s|, k requires 0 <= k < |s| => VStr([s[k]]))
  }
}
