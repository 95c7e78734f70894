/** `fetchCode` of src/functions/utils/fetchcode.js: resolves the code a
    formula refers to. A settings reference is looked up, an https URL or a
    repository path is fetched (a notebook contributes its function cell),
    and inline code gets a call line appended. Network, JSON parsing and
    the two `def` patterns are parameters of the model. */
module FetchCode {
  import opened Wrappers
  import opened Strings
  import opened JsValues
  import opened ArgNames
  import opened SettingsFunctions
  import TP = TaskpaneParser

  /** What `fetch` resolves to: a response, or the `TypeError` it rejects
      with (a network or CORS failure). */
  datatype HttpResponse = Response(status: int, statusText: string, body: string) | NetworkFailure(message: string)

  datatype NotebookCell = NotebookCell(cellType: string, tags: Option<seq<string>>, source: seq<string>)

  /** `JSON.parse(text)` seen from `code.cells.filter(...)`: a SyntaxError,
      a value without a `cells` array (reading `filter` of undefined throws
      a TypeError), or the cells. */
  datatype NotebookParse = NotJson(message: string) | NoCells | Cells(cells: seq<NotebookCell>)

  /** The outside world `fetchCode` consults. `defName` and `defParams` are
      the first captures of `def\s+NAME` and `def\s+NAME\s*\((.*?)\)` on a
      code string. */
  datatype World = World(
    settings: map<string, FunctionData>,
    fetch: string -> HttpResponse,
    parseNotebook: string -> NotebookParse,
    defName: string -> Option<string>,
    defParams: string -> Option<string>)

  const NotebookHost: string := "https://functions.boardflare.com/notebooks/"
  const NoFunctionCellMessage: string := "No code cell containing \"function\" tag found."
  const CellsTypeErrorMessage: string := "Cannot read properties of undefined (reading 'filter')"

  predicate IsOk(status: int) { 200 <= status <= 299 }

  predicate IsFunctionCell(c: NotebookCell) {
    c.cellType == "code" && c.tags.Some? && "function" in c.tags.value
  }

  /** `cells.filter(code).find(tagged 'function')`: the first such cell. */
  function FunctionCell(cells: seq<NotebookCell>): (r: Option<nat>)
    ensures r.None? <==> forall k :: 0 <= k < |cells| ==> !IsFunctionCell(cells[k])
    ensures r.Some? ==> r.value < |cells| && IsFunctionCell(cells[r.value])
                        && forall k :: 0 <= k < r.value ==> !IsFunctionCell(cells[k])
  {
    if cells == [] then None
    else if IsFunctionCell(cells[0]) then Some(0)
    else
      match FunctionCell(cells[1..])
      case None => None
      case Some(k) => Some(k + 1)
  }

  /** The joined source of the notebook's function cell. */
  function NotebookCode(parsed: NotebookParse): (r: Completion<string>)
    ensures parsed.NotJson? ==> r == Throw(SyntaxError(parsed.message))
    ensures parsed.NoCells? ==> r == Throw(TypeError(CellsTypeErrorMessage))
    ensures parsed.Cells? && FunctionCell(parsed.cells).None? ==> r == Throw(Error(NoFunctionCellMessage))
    ensures parsed.Cells? && FunctionCell(parsed.cells).Some? ==>
      r == Normal(Join(parsed.cells[FunctionCell(parsed.cells).value].source, ""))
  {
    match parsed
    case NotJson(message) => Throw(SyntaxError(message))
    case NoCells => Throw(TypeError(CellsTypeErrorMessage))
    case Cells(cells) =>
      match FunctionCell(cells)
      case None => Throw(Error(NoFunctionCellMessage))
      case Some(k) => Normal(Join(cells[k].source, ""))
  }

  /** The error thrown for a response that is not ok: always a plain
      `Error`, whose text names the URL and the status. */
  function StatusError(source: string, r: HttpResponse): (e: JsError)
    requires r.Response?
    ensures e.Error?
    ensures r.status == 404 ==> e.message == "URL does not exist:\n " + source + "\n Status: 404 " + r.statusText
    ensures r.status == 401 ==> e.message == "URL requires authorization:\n " + source + "\n Status: 401 " + r.statusText
    ensures r.status != 404 && r.status != 401 ==>
      e.message == "Error fetching code from:\n " + source + "\n Status: " + IntToString(r.status)
  {
    if r.status == 404 then
      Error("URL does not exist:\n " + source + "\n Status: " + IntToString(r.status) + " " + r.statusText)
    else if r.status == 401 then
      Error("URL requires authorization:\n " + source + "\n Status: " + IntToString(r.status) + " " + r.statusText)
    else
      Error("Error fetching code from:\n " + source + "\n Status: " + IntToString(r.status))
  }

  /** The `catch` of the https branch: a TypeError points at CORS headers,
      anything else is reported as it is; both keep the original message
      at the end. */
  function WrapUrlError(source: string, e: JsError): (w: JsError)
    ensures w.Error? && EndsWith(w.message, e.message)
    ensures e.TypeError? ==> StartsWith(w.message, "Error fetching code from URL:\n " + source + "\n This might be due to missing CORS headers.")
    ensures !e.TypeError? ==> w.message == "Error fetching code from URL:\n " + source + "\n Error: " + e.message
  {
    var head := if e.TypeError? then
      "Error fetching code from URL:\n " + source + "\n This might be due to missing CORS headers.\n Original error: "
    else
      "Error fetching code from URL:\n " + source + "\n Error: ";
    assert (head + e.message)[|head + e.message| - |e.message|..] == e.message;
    assert e.TypeError? ==> (head + e.message)[..|"Error fetching code from URL:\n " + source + "\n This might be due to missing CORS headers."|]
                            == "Error fetching code from URL:\n " + source + "\n This might be due to missing CORS headers.";
    Error(head + e.message)
  }

  /** The body of the https `try` block. */
  function FetchUrl(source: string, world: World): (r: Completion<string>)
    ensures world.fetch(source).NetworkFailure? ==> r == Throw(TypeError(world.fetch(source).message))
    ensures world.fetch(source).Response? && !IsOk(world.fetch(source).status) ==>
      r == Throw(StatusError(source, world.fetch(source)))
    ensures world.fetch(source).Response? && IsOk(world.fetch(source).status) ==>
      r == if EndsWith(source, ".ipynb") then NotebookCode(world.parseNotebook(world.fetch(source).body))
           else Normal(world.fetch(source).body)
  {
    match world.fetch(source)
    case NetworkFailure(message) => Throw(TypeError(message))
    case Response(status, statusText, body) =>
      if !IsOk(status) then Throw(StatusError(source, world.fetch(source)))
      else if EndsWith(source, ".ipynb") then NotebookCode(world.parseNotebook(body))
      else Normal(body)
  }

  /** The path branch, which fetches from the notebook host; its errors are
      rethrown unchanged. */
  function FetchPath(source: string, world: World): (r: Completion<string>)
    ensures world.fetch(NotebookHost + source).NetworkFailure? ==>
      r == Throw(TypeError(world.fetch(NotebookHost + source).message))
    ensures world.fetch(NotebookHost + source).Response? && !IsOk(world.fetch(NotebookHost + source).status) ==>
      r == Throw(Error("Failed to fetch code from path. Status: " + IntToString(world.fetch(NotebookHost + source).status)))
    ensures world.fetch(NotebookHost + source).Response? && IsOk(world.fetch(NotebookHost + source).status) ==>
      r == if EndsWith(source, ".ipynb") then NotebookCode(world.parseNotebook(world.fetch(NotebookHost + source).body))
           else Normal(world.fetch(NotebookHost + source).body)
  {
    match world.fetch(NotebookHost + source)
    case NetworkFailure(message) => Throw(TypeError(message))
    case Response(status, _, body) =>
      if !IsOk(status) then Throw(Error("Failed to fetch code from path. Status: " + IntToString(status)))
      else if EndsWith(source, ".ipynb") then NotebookCode(world.parseNotebook(body))
      else Normal(body)
  }

  /** The number of `argN` the inline branch passes, as written:
      `capture?.split(',')?.length || 0`. */
  function InlineArityAsWritten(params: Option<string>): (k: nat)
    ensures params.None? ==> k == 0
    ensures params.Some? ==> k == CountChar(params.value, ',') + 1
  {
    match params
    case None => 0
    case Some(text) => |Split(text, ',')|
  }

  /** The number of arguments the function declares: the non-blank pieces,
      which is how both parsers count them. */
  function InlineArity(params: Option<string>): (k: nat)
    ensures params.None? ==> k == 0
    ensures params.Some? ==> k <= CountChar(params.value, ',') + 1
  {
    match params
    case None => 0
    case Some(text) => |NonBlank(Split(text, ','))|
  }

  /** As written, `def f():` is called with one argument, which Python
      rejects; the corrected count is zero. */
  lemma EmptyParamsDiscrepancy()
    ensures InlineArityAsWritten(Some("")) == 1
    ensures InlineArity(Some("")) == 0
  {
    assert Split("", ',') == [""];
    assert Trim("") == "" by {
      StripEmptyIffBlank("", IsJsSpace);
    }
    assert NonBlank([""]) == [];
  }

  /** A trailing comma adds an argument as written. */
  lemma TrailingCommaArity()
    ensures InlineArityAsWritten(Some("a, b,")) == 3
  {
    assert CountChar("a, b,", ',') == 2;
  }

  /** Both counts agree on parameters with no blank piece. */
  lemma ArityAgreesWithoutBlankPieces(text: string)
    requires forall k :: 0 <= k < |Split(text, ',')| ==> Trim(Split(text, ',')[k]) != ""
    ensures InlineArity(Some(text)) == InlineArityAsWritten(Some(text))
  {
  }

  /** Inline code with a `def` gets `\n\nresult = name(arg1, ...)` appended,
      with the argument count as written; without one it is returned as it
      is. */
  function AppendCallLine(code: string, world: World): (r: string)
    ensures world.defName(code).None? || world.defName(code) == Some("") ==> r == code
    ensures world.defName(code).Some? && world.defName(code) != Some("") ==>
      r == code + TP.ResultLine(world.defName(code).value, InlineArityAsWritten(world.defParams(code)))
  {
    match world.defName(code)
    case None => code
    case Some(name) =>
      if name == "" then code
      else code + TP.ResultLine(name, InlineArityAsWritten(world.defParams(code)))
  }

  /** As written, the call passes one argument more than the parameter
      text has commas, whatever the pieces hold. */
  lemma AppendedArity(code: string, world: World)
    requires world.defName(code).Some? && world.defName(code) != Some("") && world.defParams(code).Some?
    ensures AppendCallLine(code, world)
            == code + "\n\nresult = " + Lower(world.defName(code).value) + "("
               + Join(ArgNameSeq(CountChar(world.defParams(code).value, ',') + 1), ", ") + ")"
  {
    var k := CountChar(world.defParams(code).value, ',') + 1;
    assert AppendCallLine(code, world) == code + TP.ResultLine(world.defName(code).value, k);
    CallLineText(code, Lower(world.defName(code).value), Join(ArgNameSeq(k), ", "));
  }

  /** The call line the inline branch evidently intends: one `argN` per
      declared parameter, as both code parsers count them. */
  function AppendCallLineIntended(code: string, world: World): (r: string)
    ensures world.defName(code).None? || world.defName(code) == Some("") ==> r == code
    ensures world.defName(code).Some? && world.defName(code) != Some("") ==>
      r == code + TP.ResultLine(world.defName(code).value, InlineArity(world.defParams(code)))
  {
    match world.defName(code)
    case None => code
    case Some(name) =>
      if name == "" then code
      else code + TP.ResultLine(name, InlineArity(world.defParams(code)))
  }

  predicate IsRepositoryPath(source: string) {
    EndsWith(source, ".ipynb") || EndsWith(source, ".py")
  }

  /** Text that is neither a settings reference, a URL nor a repository
      path is inline code. */
  predicate IsInlineCode(source: string) {
    !StartsWith(source, SettingsPrefix) && !StartsWith(source, "https://") && !IsRepositoryPath(source)
  }

  /** `fetchCode`, branch by branch in the order the code tests them. */
  function FetchCode(source: string, world: World): (r: Completion<string>)
    ensures StartsWith(source, SettingsPrefix) ==>
      r == match GetFunction(source, world.settings)
           case Normal(code) => Normal(code)
           case Throw(e) => Throw(Error("Failed to parse settings reference: " + e.message))
    ensures !StartsWith(source, SettingsPrefix) && StartsWith(source, "https://") ==>
      r == match FetchUrl(source, world)
           case Normal(code) => Normal(code)
           case Throw(e) => Throw(WrapUrlError(source, e))
    ensures !StartsWith(source, SettingsPrefix) && !StartsWith(source, "https://") && IsRepositoryPath(source) ==>
      r == FetchPath(source, world)
    ensures IsInlineCode(source) ==> r == Normal(AppendCallLine(source, world))
  {
    if StartsWith(source, SettingsPrefix) then
      match GetFunction(source, world.settings)
      case Normal(code) => Normal(code)
      case Throw(e) => Throw(Error("Failed to parse settings reference: " + e.message))
    else if StartsWith(source, "https://") then
      match FetchUrl(source, world)
      case Normal(code) => Normal(code)
      case Throw(e) => Throw(WrapUrlError(source, e))
    else if IsRepositoryPath(source) then FetchPath(source, world)
    else Normal(AppendCallLine(source, world))
  }

  /** `fetchCode` with the intended call line: the same on every branch but
      the inline one. */
  function FetchCodeIntended(source: string, world: World): (r: Completion<string>)
    ensures !IsInlineCode(source) ==> r == FetchCode(source, world)
    ensures IsInlineCode(source) ==> r == Normal(AppendCallLineIntended(source, world))
  {
    if IsInlineCode(source) then Normal(AppendCallLineIntended(source, world)) else FetchCode(source, world)
  }

  /** `ArgList(1)` is `arg1`. */
  lemma OneArgList()
    ensures ArgList(1) == "arg1"
  {
    assert NatToString(1) == [DigitChar(1)];
  }

  /** As written, inline code `def f():` gets `result = f(arg1)`, a call
      Python rejects; the intended line is `result = f()`. */
  lemma InlineNoParamsDiscrepancy(source: string, world: World, name: string)
    requires IsInlineCode(source)
    requires world.defName(source) == Some(name) && name != "" && world.defParams(source) == Some("")
    ensures FetchCode(source, world) == Normal(source + "\n\nresult = " + Lower(name) + "(" + "arg1" + ")")
    ensures FetchCodeIntended(source, world) == Normal(source + "\n\nresult = " + Lower(name) + "(" + "" + ")")
  {
    EmptyParamsDiscrepancy();
    OneArgList();
    assert AppendCallLine(source, world) == source + TP.ResultLine(name, 1);
    assert AppendCallLineIntended(source, world) == source + TP.ResultLine(name, 0);
    CallLineText(source, Lower(name), "arg1");
    CallLineText(source, Lower(name), "");
  }

  /** The text of an appended call line, regrouped. */
  lemma CallLineText(code: string, name: string, args: string)
    ensures code + ("\n\nresult = " + name + "(" + args + ")") == code + "\n\nresult = " + name + "(" + args + ")"
  {
  }

  /** The two agree on inline code whose parameter pieces are all non-blank. */
  lemma IntendedAgreesWithoutBlankPieces(source: string, world: World)
    requires world.defParams(source).Some?
    requires var ps := Split(world.defParams(source).value, ',');
      forall k :: 0 <= k < |ps| ==> Trim(ps[k]) != ""
    ensures FetchCodeIntended(source, world) == FetchCode(source, world)
  {
    ArityAgreesWithoutBlankPieces(world.defParams(source).value);
  }

  /** A URL answering with a status that is not ok is reported through the
      catch as a plain error, with the status text inside. */
  lemma StatusErrorWrapped(source: string, world: World)
    requires StartsWith(source, "https://")
    requires world.fetch(source).Response? && !IsOk(world.fetch(source).status)
    ensures FetchCode(source, world)
            == Throw(Error("Error fetching code from URL:\n " + source + "\n Error: " + StatusError(source, world.fetch(source)).message))
  {
    assert !StartsWith(source, SettingsPrefix) by {
      assert source[0] == 'h';
      assert SettingsPrefix[0] == 'w';
    }
  }

  /** A blank settings name is reported inside the parse-failure wrapper. */
  lemma BlankSettingsName(world: World)
    ensures FetchCode(SettingsPrefix + "  ", world)
            == Throw(Error("Failed to parse settings reference: " + NoNameMessage))
  {
    var source := SettingsPrefix + "  ";
    assert source[..|SettingsPrefix|] == SettingsPrefix;
    assert source[|SettingsPrefix|..] == "  ";
    assert Trim("  ") == "" by {
      StripEmptyIffBlank("  ", IsJsSpace);
    }
  }

  /** A notebook URL yields the joined source of its first function cell. */
  lemma NotebookUrlYieldsFunctionCell(source: string, world: World, cells: seq<NotebookCell>, k: nat)
    requires StartsWith(source, "https://") && EndsWith(source, ".ipynb")
    requires world.fetch(source).Response? && IsOk(world.fetch(source).status)
    requires world.parseNotebook(world.fetch(source).body) == Cells(cells)
    requires k < |cells| && IsFunctionCell(cells[k]) && forall j :: 0 <= j < k ==> !IsFunctionCell(cells[j])
    ensures FetchCode(source, world) == Normal(Join(cells[k].source, ""))
  {
    assert !StartsWith(source, SettingsPrefix) by {
      assert source[0] == 'h';
      assert SettingsPrefix[0] == 'w';
    }
  }

  /** Code fetched from a URL or a repository path never gets a call line. */
  lemma FetchedCodeIsUnchanged(source: string, world: World)
    requires StartsWith(source, "https://") && !EndsWith(source, ".ipynb")
    requires world.fetch(source).Response? && IsOk(world.fetch(source).status)
    ensures FetchCode(source, world) == Normal(world.fetch(source).body)
  {
    assert !StartsWith(source, SettingsPrefix) by {
      assert source[0] == 'h';
      assert SettingsPrefix[0] == 'w';
    }
  }
}
