/** `parsePython` of src/taskpane/utils/codeparser.js: from the first
    `def name(params):` of a notebook cell it derives the call line appended
    at run time, the Excel signature and the named LAMBDA formula that
    reads the code back from the workbook settings. Regex matches are given
    as their captures; `window.location.hostname` and the ISO timestamp are
    parameters. */
module TaskpaneParser {
  import opened Wrappers
  import opened Strings
  import opened JsValues
  import opened ArgNames

  /** The captures of the `def` pattern: the function name and the text
      between the parentheses. */
  datatype DefMatch = DefMatch(name: string, params: string)

  datatype ParsedFunction = ParsedFunction(
    name: string, signature: string, description: string, code: string,
    resultLine: string, formula: string, timestamp: string, uid: string)

  const NotStringMessage: string := "Code must be a string"
  const NoDefMessage: string := "No function definition found"
  const NoDescription: string := "No description available"

  /** The end of the run of identifier characters starting at `p`. */
  function IdentRunEnd(t: string, p: nat): (q: nat)
    requires p <= |t|
    ensures p <= q <= |t|
    ensures forall k :: p <= k < q ==> IsIdentChar(t[k])
    ensures q == |t| || !IsIdentChar(t[q])
    decreases |t| - p
  {
    if p < |t| && IsIdentChar(t[p]) then IdentRunEnd(t, p + 1) else p
  }

  predicate NoLineTerminator(s: string) {
    forall k :: 0 <= k < |s| ==> !IsLineTerminator(s[k])
  }

  /** Whether `\s*(?::\s*[^=]+)?(?:\s*=.*)?$` matches all of `t`: after
      optional white space, nothing; or `=` and a default on one line; or a
      colon, a non-empty hint without `=`, and that optional default. */
  predicate TailOk(t: string) {
    var u := DropLeading(t, IsJsSpace);
    u == ""
    || (u[0] == '=' && NoLineTerminator(u[1..]))
    || (u[0] == ':' &&
        var r := u[1..];
        var i := IndexOfFrom(r, "=", 0);
        if i < 0 then |r| >= 1 else i >= 1 && NoLineTerminator(r[i + 1..]))
  }

  /** The leftmost match of the parameter pattern at or after `p`: the
      identifier it captures. The greedy identifier is never shortened,
      since a tail that starts with an identifier character cannot match. */
  function FindParam(t: string, p: nat): (r: Option<string>)
    requires p <= |t|
    ensures r.Some? ==> IsIdentifier(r.value)
    decreases |t| - p
  {
    if p == |t| then None
    else if IsIdentStart(t[p]) && TailOk(t[IdentRunEnd(t, p)..]) then Some(t[p..IdentRunEnd(t, p)])
    else FindParam(t, p + 1)
  }

  /** One entry of `args`: the captured name, or the trimmed piece when the
      pattern does not match. */
  function BareParamName(arg: string): (r: string)
    ensures IsIdentifier(r) || r == Trim(arg)
  {
    var t := Trim(arg);
    match FindParam(t, 0)
    case Some(name) => name
    case None => t
  }

  /** `params.split(',').filter(arg => arg.trim()).map(...)`. */
  function ArgsOf(params: string): (args: seq<string>)
    ensures |args| == |NonBlank(Split(params, ','))|
    ensures forall k :: 0 <= k < |args| ==> args[k] == BareParamName(NonBlank(Split(params, ','))[k])
  {
    var pieces := NonBlank(Split(params, ','));
    seq(|pieces|, k requires 0 <= k < |pieces| => BareParamName(pieces[k]))
  }

  /** `text.split('\n')[0]`: the text up to its first line break. */
  function FirstLine(text: string): (l: string)
    ensures '\n' !in l && StartsWith(text, l)
    ensures l == text || (|l| < |text| && text[|l|] == '\n')
  {
    SplitHead(text, '\n');
    Split(text, '\n')[0]
  }

  /** A parameter as Python declares it: bare, with a type hint, or with a
      default value. */
  datatype ParamDecl = Plain(name: string) | Hinted(name: string, hint: string) | Defaulted(name: string, default: string)

  function DeclText(d: ParamDecl): string {
    match d
    case Plain(x) => x
    case Hinted(x, hint) => x + ":" + hint
    case Defaulted(x, default) => x + "=" + default
  }

  /** The declarations the parameter pattern reads: an identifier, a
      non-empty hint without `=`, a default on one line. */
  predicate WellFormedDecl(d: ParamDecl) {
    IsIdentifier(d.name)
    && match d
       case Plain(_) => true
       case Hinted(_, hint) => |hint| >= 1 && '=' !in hint
       case Defaulted(_, default) => NoLineTerminator(default)
  }

  function Names(decls: seq<ParamDecl>): (r: seq<string>)
    ensures |r| == |decls| && forall k :: 0 <= k < |decls| ==> r[k] == decls[k].name
  {
    seq(|decls|, k requires 0 <= k < |decls| => decls[k].name)
  }

  /** The parameter pattern captures the declared name. */
  lemma DeclaredName(d: ParamDecl)
    requires WellFormedDecl(d)
    ensures FindParam(DeclText(d), 0) == Some(d.name)
  {
    match d
    case Plain(x) => PlainParam(x);
    case Hinted(x, hint) => HintedParam(x, hint);
    case Defaulted(x, default) => DefaultedParam(x, default);
  }

  /** For a parameter list written as comma-separated declarations, each
      padded with any white space, `args` is exactly the declared names. */
  lemma ArgsOfDeclared(pieces: seq<string>, decls: seq<ParamDecl>)
    requires |pieces| == |decls| >= 1
    requires forall k :: 0 <= k < |pieces| ==> ',' !in pieces[k] && Trim(pieces[k]) == DeclText(decls[k])
    requires forall k :: 0 <= k < |decls| ==> WellFormedDecl(decls[k])
    ensures ArgsOf(Join(pieces, ",")) == Names(decls)
  {
    assert Split(Join(pieces, ","), ',') == pieces by {
      SplitJoin(pieces, ',');
    }
    assert NonBlank(pieces) == pieces by {
      forall k | 0 <= k < |pieces| ensures Trim(pieces[k]) != "" {
        assert |DeclText(decls[k])| >= 1;
      }
    }
    ArgsOfNames(pieces, decls);
  }

  lemma ArgsOfNames(pieces: seq<string>, decls: seq<ParamDecl>)
    requires |pieces| == |decls|
    requires forall k :: 0 <= k < |pieces| ==> Trim(pieces[k]) == DeclText(decls[k])
    requires forall k :: 0 <= k < |decls| ==> WellFormedDecl(decls[k])
    ensures forall k :: 0 <= k < |pieces| ==> BareParamName(pieces[k]) == decls[k].name
  {
    forall k | 0 <= k < |pieces| ensures BareParamName(pieces[k]) == decls[k].name {
      DeclaredName(decls[k]);
    }
  }

  /** The first line of the docstring, trimmed and cut to 255 characters. */
  function Description(docstring: Option<string>): (d: string)
    ensures docstring.None? ==> d == NoDescription
    ensures docstring.Some? ==>
      var line := Trim(FirstLine(docstring.value));
      |d| == (if |line| < 255 then |line| else 255) && StartsWith(line, d) && '\n' !in d
  {
    match docstring
    case None => NoDescription
    case Some(text) =>
      var first := FirstLine(text);
      StripInside(first, IsJsSpace);
      Take(Trim(first), 255)
  }

  /** Stripping keeps a character-free piece character-free. */
  lemma StripInside(s: string, space: char -> bool)
    requires '\n' !in s
    ensures '\n' !in Strip(s, space)
  {
    var d := DropLeading(s, space);
    SliceLacks(s, |s| - |d|, |s|, '\n');
    var r := DropTrailing(d, space);
    SliceLacks(d, 0, |r|, '\n');
  }

  /** A slice lacks whatever the whole lacks. */
  lemma SliceLacks(s: string, i: nat, j: nat, c: char)
    requires i <= j <= |s| && c !in s
    ensures c !in s[i..j]
  {
    forall k | 0 <= k < j - i ensures s[i..j][k] != c {
      assert s[i..j][k] == s[i + k];
    }
  }

  /** The runtime environment the formula calls. */
  function RunpyEnv(hostname: string): (env: string)
    ensures hostname == "localhost" <==> env == "LOCAL.RUNPY"
    ensures hostname != "localhost" <==> env == "BOARDFLARE.RUNPY"
  {
    if hostname == "localhost" then "LOCAL.RUNPY" else "BOARDFLARE.RUNPY"
  }

  /** `\n\nresult = name(arg1, ..., argN)`. */
  function ResultLine(name: string, arity: nat): (line: string)
    ensures line == "\n\nresult = " + Lower(name) + "(" + Join(ArgNameSeq(arity), ", ") + ")"
  {
    "\n\nresult = " + Lower(name) + "(" + ArgList(arity) + ")"
  }

  /** `"workbook-settings:name"`, quoted as a formula string. */
  function SettingsRef(name: string): string {
    "\"workbook-settings:" + name + "\""
  }

  /** `=LAMBDA(a, b, ENV(ref, a, b))`: the parameters are declared by the
      LAMBDA and passed on, in the same order, after the code reference. */
  function Formula(args: seq<string>, env: string, codeRef: string): (f: string)
    ensures StartsWith(f, "=LAMBDA(" + Join(args, ", ") + ", ")
    ensures EndsWith(f, env + "(" + codeRef + ", " + Join(args, ", ") + "))")
    ensures f == "=LAMBDA(" + Join(args, ", ") + ", " + env + "(" + codeRef + ", " + Join(args, ", ") + "))"
  {
    var params := Join(args, ", ");
    var head := "=LAMBDA(" + params + ", ";
    var tail := env + "(" + codeRef + ", " + params + "))";
    assert (head + tail)[..|head|] == head;
    assert (head + tail)[|head + tail| - |tail|..] == tail;
    head + tail
  }

  /** `parsePython`. `functionMatch` and `docstring` are the captures of the
      `def` and docstring patterns on `rawCode`. */
  function ParsePython(rawCode: JsValue, functionMatch: Option<DefMatch>, docstring: Option<string>,
                       hostname: string, timestamp: string): (r: Completion<ParsedFunction>)
    ensures !rawCode.JString? ==> r == Throw(TypeError(NotStringMessage))
    ensures rawCode.JString? && functionMatch.None? ==> r == Throw(Error(NoDefMessage))
    ensures rawCode.JString? && functionMatch.Some? ==> r.Normal?
    ensures r.Normal? ==> r.value.name == Lower(functionMatch.value.name)
    ensures r.Normal? ==> r.value.code == Trim(rawCode.s)
    ensures r.Normal? ==> r.value.resultLine == ResultLine(r.value.name, |ArgsOf(Trim(functionMatch.value.params))|)
    ensures r.Normal? ==> r.value.signature == "=" + Upper(r.value.name) + "(" + Trim(functionMatch.value.params) + ")"
    ensures r.Normal? ==> r.value.description == Description(docstring)
    ensures r.Normal? ==>
      r.value.formula == Formula(ArgsOf(Trim(functionMatch.value.params)), RunpyEnv(hostname), SettingsRef(r.value.name))
    ensures r.Normal? ==> r.value.timestamp == timestamp && r.value.uid == "anonymous"
  {
    if !rawCode.JString? then Throw(TypeError(NotStringMessage))
    else if functionMatch.None? then Throw(Error(NoDefMessage))
    else
      var name := Lower(functionMatch.value.name);
      var params := Trim(functionMatch.value.params);
      var args := ArgsOf(params);
      Normal(ParsedFunction(
        name := name,
        signature := "=" + Upper(name) + "(" + params + ")",
        description := Description(docstring),
        code := Trim(rawCode.s),
        resultLine := ResultLine(name, |args|),
        formula := Formula(args, RunpyEnv(hostname), SettingsRef(name)),
        timestamp := timestamp,
        uid := "anonymous"))
  }

  /** For parameters written as declarations, the settings formula declares
      and passes exactly the declared names, and the call line passes one
      `argN` per declaration. */
  lemma DeclaredParamsFormula(rawCode: JsValue, m: DefMatch, docstring: Option<string>, hostname: string,
                              timestamp: string, pieces: seq<string>, decls: seq<ParamDecl>)
    requires rawCode.JString? && Trim(m.params) == Join(pieces, ",")
    requires |pieces| == |decls| >= 1
    requires forall k :: 0 <= k < |pieces| ==> ',' !in pieces[k] && Trim(pieces[k]) == DeclText(decls[k])
    requires forall k :: 0 <= k < |decls| ==> WellFormedDecl(decls[k])
    ensures var p := ParsePython(rawCode, Some(m), docstring, hostname, timestamp).value;
      p.formula == Formula(Names(decls), RunpyEnv(hostname), SettingsRef(p.name))
      && p.resultLine == ResultLine(p.name, |decls|)
  {
    ArgsOfDeclared(pieces, decls);
  }

  /** A bare identifier is its own parameter name. */
  lemma PlainParam(x: string)
    requires IsIdentifier(x)
    ensures FindParam(x, 0) == Some(x)
  {
    IdentRunAll(x, x, 0);
  }

  /** An identifier followed by a type hint keeps only the identifier. */
  lemma HintedParam(x: string, hint: string)
    requires IsIdentifier(x) && |hint| >= 1 && '=' !in hint
    ensures FindParam(x + ":" + hint, 0) == Some(x)
  {
    var t := x + ":" + hint;
    IdentRunAll(x, t, 0);
    assert t[|x|..] == ":" + hint;
    LeadingNotSpace(":" + hint);
    NoEqualsNotFound(hint);
    assert (":" + hint)[1..] == hint;
  }

  /** An identifier followed by a one-line default keeps only the identifier. */
  lemma DefaultedParam(x: string, default: string)
    requires IsIdentifier(x) && NoLineTerminator(default)
    ensures FindParam(x + "=" + default, 0) == Some(x)
  {
    var t := x + "=" + default;
    IdentRunAll(x, t, 0);
    assert t[|x|..] == "=" + default;
    LeadingNotSpace("=" + default);
    assert ("=" + default)[1..] == default;
  }

  /** Text that starts with a non-space has no leading white space to drop. */
  lemma LeadingNotSpace(s: string)
    requires |s| >= 1 && !IsJsSpace(s[0])
    ensures DropLeading(s, IsJsSpace) == s
  {
  }

  lemma NoEqualsNotFound(s: string)
    requires '=' !in s
    ensures IndexOfFrom(s, "=", 0) == -1
  {
    forall i | 0 <= i < |s| ensures !OccursAt(s, "=", i) {
      assert s[i] in s;
    }
  }

  /** In `t`, which starts with identifier `x` at `p`, the identifier run
      stops right after `x` when nothing else of identifier kind follows. */
  lemma {:induction false} IdentRunAll(x: string, t: string, p: nat)
    requires IsIdentifier(x) && |x| <= |t| && t[..|x|] == x && p <= |x|
    requires |x| == |t| || !IsIdentChar(t[|x|])
    ensures IdentRunEnd(t, p) == |x|
    decreases |x| - p
  {
    if p < |x| {
      assert t[p] == x[p];
      IdentRunAll(x, t, p + 1);
    }
  }

  /** The generated call names the function exactly as the settings
      reference does, with one `argN` per non-blank parameter, and `name()`
      when there are none. */
  lemma ResultLineCallsFunction(rawCode: JsValue, m: DefMatch, docstring: Option<string>, hostname: string, timestamp: string)
    requires rawCode.JString?
    ensures var p := ParsePython(rawCode, Some(m), docstring, hostname, timestamp).value;
      p.resultLine == "\n\nresult = " + p.name + "(" + ArgList(|NonBlank(Split(Trim(m.params), ','))|) + ")"
  {
    var p := ParsePython(rawCode, Some(m), docstring, hostname, timestamp).value;
    var n := |ArgsOf(Trim(m.params))|;
    assert p.name == Lower(m.name);
    assert p.resultLine == ResultLine(p.name, n);
    LowerIdempotent(m.name);
    assert Lower(p.name) == p.name;
  }

  /** A function without parameters is called as `name()`. */
  lemma NoParamsCall(name: string)
    ensures ResultLine(name, 0) == "\n\nresult = " + Lower(name) + "()"
  {
  }
}
