/** The two `convert_result` programs the Pyodide worker runs
    (src/functions/runpy/convert_result.js): one for code that imports
    pandas, one for code that does not. Both share the list branch and the
    messages of result.py. */
module PyodideConverters {
  import opened PyValues
  import opened ResultNormaliser

  /** `convert_result_list`: None, then dates, then scalars, then lists. */
  function ConvertResultList(v: PyValue): (r: PyResult<seq<seq<PyValue>>>)
    ensures v.VNone? ==> r == Raised(ValueError(NoneMessage))
    ensures IsScalar(v) ==> r == Ok([[v]])
    ensures v.VList? ==> r == ConvertList(v.items)
    ensures !v.VNone? && !IsDateLike(v) && !IsScalar(v) && !v.VList? ==> r == Raised(ValueError(UnsupportedMessage))
  {
    if v.VNone? then Raised(ValueError(NoneMessage))
    else if IsDateLike(v) then
      match ToExcelSerial(v)
      case Ok(n) => Ok([[VInt(n)]])
      case Raised(e) => Raised(e)
    else if IsScalar(v) then Ok([[v]])
    else if v.VList? then ConvertList(v.items)
    else Raised(ValueError(UnsupportedMessage))
  }

  /** `convert_result_pandas`: as the list program, with DataFrame, Series,
      ndarray and numpy-scalar branches between the scalar and list tests. */
  function ConvertResultPandas(v: PyValue): (r: PyResult<seq<seq<PyValue>>>)
    ensures v.VNone? ==> r == Raised(ValueError(NoneMessage))
    ensures IsScalar(v) ==> r == Ok([[v]])
    ensures PandasRows(v).Some? ==> r == Ok(PandasRows(v).value)
    ensures !IsScalar(v) && NumpyRows(v).Some? ==> r == Ok(NumpyRows(v).value)
    ensures v.VList? ==> r == ConvertList(v.items)
  {
    if v.VNone? then Raised(ValueError(NoneMessage))
    else if IsDateLike(v) then
      match ToExcelSerial(v)
      case Ok(n) => Ok([[VInt(n)]])
      case Raised(e) => Raised(e)
    else if IsScalar(v) then Ok([[v]])
    else if PandasRows(v).Some? then Ok(PandasRows(v).value)
    else if NumpyRows(v).Some? then Ok(NumpyRows(v).value)
    else if v.VList? then ConvertList(v.items)
    else Raised(ValueError(UnsupportedMessage))
  }

  /** Without pandas the worker's program is result.py's `convert_result`
      with neither library loaded. */
  lemma {:induction false} ListProgramMatchesExec(v: PyValue)
    ensures ConvertResultList(v) == ConvertResult(v, false, false)
  {
    if IsDateLike(v) {
      assert !IsScalar(v);
    }
  }

  /** With pandas the worker's program agrees with result.py with both
      libraries loaded, except on `np.float64`: its scalar test runs first,
      so the numpy scalar itself lands in the cell instead of its `.item()`. */
  lemma {:induction false} PandasProgramMatchesExec(v: PyValue)
    ensures !(v.VNpScalar? && v.isFloat64) ==> ConvertResultPandas(v) == ConvertResult(v, true, true)
    ensures v.VNpScalar? && v.isFloat64 ==>
      ConvertResultPandas(v) == Ok([[v]]) && ConvertResult(v, true, true) == Ok([[v.value]])
  {
    if IsDateLike(v) {
      assert !IsScalar(v) && PandasRows(v).None? && NumpyRows(v).None?;
    }
  }
}
