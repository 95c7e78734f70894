/** The message handler of src/functions/runpy/pyodide-worker.js, on its
    list branch: it binds the arguments, runs the user's code, then either
    lets a Python `convert_result` normalise a global `result` or checks a
    direct return value in JavaScript. */
module PyodideWorker {
  import opened Wrappers
  import opened Strings
  import opened JsValues
  import Py = PyValues
  import RN = ResultNormaliser
  import opened PyodideConverters
  import opened ExecSetup

  const NoneMessage: string := "Your function returned None. If you wanted a blank cell, return an empty string ('') instead."
  const EmptyArrayMessage: string := "Result must be a scalar of type int, float, str, bool or a 2D list."
  const ElementMessage: string := "All elements must be valid scalar types: int, float, str, bool."
  const RowLengthMessage: string := "All rows must have the same length."
  const Valid2DMessage: string := "Result must be a valid 2D list."
  const NotScalarOr2DMessage: string := "Result must be a scalar or 2D list."

  predicate AllArrays(xs: seq<JsValue>) {
    forall k :: 0 <= k < |xs| ==> xs[k].JArray?
  }

  predicate AllScalars(xs: seq<JsValue>) {
    forall k :: 0 <= k < |xs| ==> IsValidScalar(xs[k])
  }

  /** What the `forEach` callback throws for one row, if anything: the length
      test comes before the cell test. */
  function RowError(row: JsValue, width: nat): (r: Option<string>)
    requires row.JArray?
    ensures r.None? <==> |row.items| == width && AllScalars(row.items)
    ensures |row.items| != width ==> r == Some(RowLengthMessage)
    ensures |row.items| == width && !AllScalars(row.items) ==> r == Some(ElementMessage)
  {
    if |row.items| != width then Some(RowLengthMessage)
    else if !AllScalars(row.items) then Some(ElementMessage)
    else None
  }

  /** The error of the first failing row, rows taken in order. */
  function FirstRowError(rows: seq<JsValue>, width: nat): (r: Option<string>)
    requires AllArrays(rows)
    ensures r.None? <==> forall k :: 0 <= k < |rows| ==> RowError(rows[k], width).None?
    ensures r.Some? ==> exists k :: 0 <= k < |rows| && r == RowError(rows[k], width)
                                    && forall i :: 0 <= i < k ==> RowError(rows[i], width).None?
  {
    if rows == [] then None
    else if RowError(rows[0], width).Some? then RowError(rows[0], width)
    else
      var r := FirstRowError(rows[1..], width);
      if r.Some? then
        var k :| 0 <= k < |rows[1..]| && r == RowError(rows[1..][k], width)
                 && forall i :: 0 <= i < k ==> RowError(rows[1..][i], width).None?;
        assert forall i :: 1 <= i < k + 1 ==> rows[i] == rows[1..][i - 1];
        r
      else
        assert forall k :: 1 <= k < |rows| ==> rows[k] == rows[1..][k - 1];
        r
  }

  /** The JavaScript check of a direct return value (lines 137-174), as a
      function of the value: the completion the `else` branch of
      `hasGlobalResult` ends with, `result` on success. */
  function DirectReturn(v: JsValue): (r: Completion<JsValue>)
    ensures v.JUndefined? ==> r == Throw(Error(NoneMessage))
    ensures IsValidScalar(v) ==> r == Normal(JArray([JArray([v])]))
    ensures v == JArray([]) ==> r == Throw(Error(EmptyArrayMessage))
    ensures !v.JUndefined? && !IsValidScalar(v) && !v.JArray? ==> r == Throw(Error(NotScalarOr2DMessage))
    ensures v.JArray? && v.items != [] && !AllArrays(v.items) && AllScalars(v.items) ==> r == Normal(JArray([v]))
    ensures v.JArray? && !AllArrays(v.items) && !AllScalars(v.items) ==> r == Throw(Error(ElementMessage))
    ensures v.JArray? && v.items != [] && AllArrays(v.items) ==>
      r == (match FirstRowError(v.items, |v.items[0].items|)
            case None => Normal(v)
            case Some(m) => Throw(Error(m)))
  {
    if v.JUndefined? then Throw(Error(NoneMessage))
    else if IsValidScalar(v) then Normal(JArray([JArray([v])]))
    else if !v.JArray? then Throw(Error(NotScalarOr2DMessage))
    else if v.items == [] then Throw(Error(EmptyArrayMessage))
    else if !AllArrays(v.items) then
      if !AllScalars(v.items) then Throw(Error(ElementMessage))
      else Normal(JArray([v]))
    else
      match FirstRowError(v.items, |v.items[0].items|)
      case None => Normal(v)
      case Some(m) => Throw(Error(m))
  }

  /** The validator as the worker runs it: `result` is rebound step by step
      and the rows are checked by a loop in order. The `else` that throws
      "Result must be a valid 2D list." cannot be reached. */
  method ValidateDirectReturn(v: JsValue) returns (r: Completion<JsValue>)
    ensures r == DirectReturn(v)
    ensures r != Throw(Error(Valid2DMessage))
  {
    if v.JUndefined? {
      return Throw(Error(NoneMessage));
    }
    if IsValidScalar(v) {
      return Normal(JArray([JArray([v])]));
    }
    if !v.JArray? {
      return Throw(Error(NotScalarOr2DMessage));
    }
    var result := v.items;
    if |result| == 0 {
      return Throw(Error(EmptyArrayMessage));
    }
    if !AllArrays(result) {
      if !AllScalars(result) {
        return Throw(Error(ElementMessage));
      }
      result := [v];
    }
    if AllArrays(result) {
      var innerLength := |result[0].items|;
      var i := 0;
      while i < |result|
        invariant 0 <= i <= |result|
        invariant forall k :: 0 <= k < i ==> RowError(result[k], innerLength).None?
      {
        var row := result[i].items;
        if |row| != innerLength {
          return Throw(Error(RowLengthMessage));
        }
        if !AllScalars(row) {
          return Throw(Error(ElementMessage));
        }
        i := i + 1;
      }
      r := Normal(JArray(result));
    } else {
      assert false;
      r := Throw(Error(Valid2DMessage));
    }
  }

  /** A list mixing rows and scalars is reported as a bad element here,
      where the Python converters report "Result must be a valid 2D list". */
  lemma MixedArrayIsElementError(v: JsValue, row: nat, cell: nat)
    requires v.JArray? && row < |v.items| && cell < |v.items|
    requires v.items[row].JArray? && !v.items[cell].JArray?
    ensures DirectReturn(v) == Throw(Error(ElementMessage))
  {
    assert !IsValidScalar(v.items[row]);
  }

  /** Rows are checked one at a time, so a bad cell in an early row is
      reported even when a later row is ragged; the Python converters
      compare all lengths first and report the ragged row. */
  lemma EarlyBadCellWins()
    ensures DirectReturn(JArray([JArray([JNull]), JArray([JNumber(1.0), JNumber(2.0)])]))
            == Throw(Error(ElementMessage))
    ensures RN.ConvertList([Py.VList([Py.VNone]), Py.VList([Py.VInt(1), Py.VInt(2)])])
            == Py.Raised(Py.ValueError(RN.RowLengthMessage))
  {
    var rows := [JArray([JNull]), JArray([JNumber(1.0), JNumber(2.0)])];
    assert !IsValidScalar(rows[0].items[0]);
    assert RowError(rows[0], 1) == Some(ElementMessage);
    var items := [Py.VList([Py.VNone]), Py.VList([Py.VInt(1), Py.VInt(2)])];
    assert |items[1].items| != |items[0].items|;
  }

  /** What the worker posts back: a grid from the Python converter, the
      validated direct return, or an error message. */
  datatype Reply = PyGrid(rows: seq<seq<Py.PyValue>>) | JsGrid(value: JsValue) | ErrorReply(message: string)

  /** The class name Python prints for an exception. */
  function ErrorName(e: Py.PyError): string {
    match e
    case ValueError(_) => "ValueError"
    case TypeError(_) => "TypeError"
  }

  /** The `message` of the PythonError Pyodide throws when Python code run
      by `runPython` raises: the formatted traceback, whose frames are the
      input `frames`, ending in the line `Name: message`. */
  function PythonErrorMessage(frames: string, e: Py.PyError): (m: string)
    ensures StartsWith(m, "Traceback (most recent call last):\n" + frames)
    ensures EndsWith(m, "\n" + ErrorName(e) + ": " + e.message + "\n")
  {
    var head := "Traceback (most recent call last):\n" + frames;
    var last := "\n" + ErrorName(e) + ": " + e.message + "\n";
    assert (head + last)[..|head|] == head;
    assert (head + last)[|head + last| - |last|..] == last;
    head + last
  }

  /** The worker's choice between the two result paths (lines 70, 126-174,
      182-184). `imports` are the modules the user's code imports,
      `hasGlobalResult` whether it left a global `result` (`globalResult`),
      `returned` the value `runPythonAsync` produced and `frames` the
      traceback frames of an exception raised in `convert_result()`. */
  function WorkerReply(imports: seq<string>, hasGlobalResult: bool, globalResult: Py.PyValue, returned: JsValue,
                       frames: string): (r: Reply)
    ensures hasGlobalResult && "pandas" !in imports ==>
      r == (match ConvertResultList(globalResult)
            case Ok(g) => PyGrid(g)
            case Raised(e) => ErrorReply(PythonErrorMessage(frames, e)))
    ensures hasGlobalResult && "pandas" in imports ==>
      r == (match ConvertResultPandas(globalResult)
            case Ok(g) => PyGrid(g)
            case Raised(e) => ErrorReply(PythonErrorMessage(frames, e)))
    ensures !hasGlobalResult ==>
      r == (match DirectReturn(returned)
            case Normal(x) => JsGrid(x)
            case Throw(e) => ErrorReply(e.message))
  {
    if hasGlobalResult then
      var converted := if "pandas" in imports then ConvertResultPandas(globalResult) else ConvertResultList(globalResult);
      match converted
      case Ok(g) => PyGrid(g)
      case Raised(e) => ErrorReply(PythonErrorMessage(frames, e))
    else
      match DirectReturn(returned)
      case Normal(x) => JsGrid(x)
      case Throw(e) => ErrorReply(e.message)
  }

  /** A function that returns None, whichever path sees it, tells the user
      to return '' for a blank cell: the direct path as the whole message,
      the Python path as the last line of the traceback (NoneHintIsLastLine). */
  lemma NoneGivesBlankCellHint(imports: seq<string>, frames: string)
    ensures WorkerReply(imports, true, Py.VNone, JUndefined, frames)
            == ErrorReply(PythonErrorMessage(frames, Py.ValueError(NoneMessage)))
    ensures WorkerReply(imports, false, Py.VNone, JUndefined, frames) == ErrorReply(NoneMessage)
  {
    var e := Py.ValueError(NoneMessage);
    assert ConvertResultList(Py.VNone) == Py.Raised(e) && ConvertResultPandas(Py.VNone) == Py.Raised(e);
  }

  /** The traceback of the None error ends with the hint. */
  lemma NoneHintIsLastLine(frames: string)
    ensures EndsWith(PythonErrorMessage(frames, Py.ValueError(NoneMessage)), "\nValueError: " + NoneMessage + "\n")
  {
    var e := Py.ValueError(NoneMessage);
    assert "\n" + ErrorName(e) + ": " + e.message + "\n" == "\nValueError: " + NoneMessage + "\n";
  }

  /** The list branch's argument step (lines 64, 73, 104-118): a falsy
      `arg1` binds nothing; otherwise every slot is bound as in setup.py.
      `arg1` is None for `null`/`undefined`. */
  method SetListArgs(g: PyGlobals, arg1: Option<seq<Slot>>)
    modifies g
    ensures arg1.None? ==> g.vars == old(g.vars)
    ensures arg1.Some? ==> g.vars == old(g.vars) + ArgBindings(arg1.value)
  {
    if arg1.Some? {
      g.BindArgs(arg1.value);
    }
  }
}
