/** `parsePython` of app/editor/codeparser.js, the browser editor's parser:
    it cuts the cell at its "# Demo code" line, appends the call line to the
    code and builds a LAMBDA formula that fetches the code by URL. Regex
    matches are given as their captures; `window.location`, the ISO
    timestamp and `crypto.randomUUID()` are parameters. */
module EditorParser {
  import opened Wrappers
  import opened Strings
  import opened JsValues
  import opened ArgNames
  import TP = TaskpaneParser

  /** The match of the docstring pattern: its triple-quoted alternative
      (capture 1, possibly empty) or its single-line quoted alternative
      (capture 2, never empty). */
  datatype DocMatch = NoDoc | TripleQuoted(body: string) | SingleQuoted(text: string)

  datatype EditorFunction = EditorFunction(
    name: string, signature: string, description: string, code: string, formula: string,
    timestamp: string, uid: string, demo: Option<string>, args: seq<string>, examples: seq<JsValue>)

  const NotStringMessage: string := "Code must be a string"
  const NoActiveCodeMessage: string := "No valid code found before Demo comment"
  const NoDefMessage: string := "No function definition found"
  const NoDescription: string := "No description available"
  /** What V8 throws for `undefined.trim()`. */
  const UndefinedTrimMessage: string := "Cannot read properties of undefined (reading 'trim')"

  /** `(m[1] || m[2]).trim().slice(0, 255)` as written: an empty
      triple-quoted docstring makes `m[1]` falsy and `m[2]` undefined. */
  function DescriptionAsWritten(doc: DocMatch): (r: Completion<string>)
    ensures doc == TripleQuoted("") ==> r == Throw(TypeError(UndefinedTrimMessage))
  {
    match doc
    case NoDoc => Normal(NoDescription)
    case TripleQuoted(body) =>
      if body != "" then Normal(Take(Trim(body), 255)) else Throw(TypeError(UndefinedTrimMessage))
    case SingleQuoted(text) => Normal(Take(Trim(text), 255))
  }

  /** The description the expression evidently intends: the captured text,
      trimmed and cut to 255 characters, empty for an empty docstring. */
  function Description(doc: DocMatch): (d: string)
    ensures doc.NoDoc? ==> d == NoDescription
    ensures doc.TripleQuoted? ==> |d| <= 255 && d == Take(Trim(doc.body), 255)
    ensures doc.SingleQuoted? ==> |d| <= 255 && d == Take(Trim(doc.text), 255)
  {
    match doc
    case NoDoc => NoDescription
    case TripleQuoted(body) => Take(Trim(body), 255)
    case SingleQuoted(text) => Take(Trim(text), 255)
  }

  /** The two agree except on the empty triple-quoted docstring, where the
      code as written throws. */
  lemma DescriptionDiscrepancy(doc: DocMatch)
    ensures doc != TripleQuoted("") ==> DescriptionAsWritten(doc) == Normal(Description(doc))
    ensures DescriptionAsWritten(TripleQuoted("")).Throw? && Description(TripleQuoted("")) == ""
  {
    assert Trim("") == "" by {
      StripEmptyIffBlank("", IsJsSpace);
    }
  }

  /** The bracket depth at the end of `s`: opening minus closing brackets. */
  function Depth(s: string): int {
    CountChar(s, '[') - CountChar(s, ']')
  }

  lemma DepthSnoc(s: string, c: char)
    ensures Depth(s + [c]) == Depth(s) + (if c == '[' then 1 else if c == ']' then -1 else 0)
  {
    CountCharConcat(s, [c], '[');
    CountCharConcat(s, [c], ']');
    assert CountChar([c], '[') == (if c == '[' then 1 else 0) by { assert [c][1..] == []; }
    assert CountChar([c], ']') == (if c == ']' then 1 else 0) by { assert [c][1..] == []; }
  }

  /** Capture 1 of `examples\s*=\s*(\[[\s\S]*?\])` as written, given the
      text from the `[` on: the lazy `*?` stops at the first `]`, so the
      capture holds exactly one `]`, its last character. */
  function ExamplesCapture(t: string): (r: Option<string>)
    ensures r.Some? <==> ']' in t
    ensures r.Some? ==> StartsWith(t, r.value) && |r.value| >= 1 && r.value[|r.value| - 1] == ']'
                        && ']' !in r.value[..|r.value| - 1]
  {
    SplitHead(t, ']');
    if ']' in t then
      var h := Split(t, ']')[0];
      assert t[..|h| + 1] == h + "]";
      Some(h + "]")
    else None
  }

  /** The first `i` at or after `from` where the prefix `t[..i]` is balanced. */
  function BalancedEnd(t: string, from: nat): (r: Option<nat>)
    requires from <= |t|
    ensures r.Some? ==> from <= r.value <= |t| && Depth(t[..r.value]) == 0
    ensures r.Some? ==> forall j :: from <= j < r.value ==> Depth(t[..j]) != 0
    ensures r.None? ==> forall j :: from <= j <= |t| ==> Depth(t[..j]) != 0
    decreases |t| - from
  {
    if Depth(t[..from]) == 0 then Some(from)
    else if from == |t| then None
    else BalancedEnd(t, from + 1)
  }

  /** The capture the pattern evidently intends: the whole bracketed list,
      up to the `]` that closes the first `[`. */
  function ExamplesCaptureIntended(t: string): (r: Option<string>)
    ensures r.Some? ==> StartsWith(t, r.value) && |r.value| >= 1 && Depth(r.value) == 0
    ensures r.Some? ==> forall j :: 1 <= j < |r.value| ==> Depth(r.value[..j]) > 0
  {
    if t == [] || t[0] != '[' then None
    else
      match BalancedEnd(t, 1)
      case None => None
      case Some(n) =>
        assert forall j :: 1 <= j < n ==> Depth(t[..n][..j]) > 0 by {
          forall j | 1 <= j < n ensures Depth(t[..n][..j]) > 0 {
            DepthPositive(t, j);
            assert t[..n][..j] == t[..j];
          }
        }
        Some(t[..n])
  }

  /** Before the prefix first balances its depth stays positive: the depth
      moves by at most one per character and is 1 after the opening `[`. */
  lemma {:induction false} DepthPositive(t: string, j: nat)
    requires t != [] && t[0] == '[' && 1 <= j <= |t|
    requires forall i :: 1 <= i <= j ==> Depth(t[..i]) != 0
    ensures Depth(t[..j]) > 0
  {
    if j == 1 {
      assert t[..1] == [] + ['['];
      DepthSnoc([], '[');
    } else {
      DepthPositive(t, j - 1);
      assert t[..j] == t[..j - 1] + [t[j - 1]];
      DepthSnoc(t[..j - 1], t[j - 1]);
    }
  }

  /** `BalancedEnd` finds the first balanced prefix. */
  lemma {:induction false} BalancedEndAt(t: string, from: nat, n: nat)
    requires from <= n <= |t| && Depth(t[..n]) == 0
    requires forall j :: from <= j < n ==> Depth(t[..j]) != 0
    ensures BalancedEnd(t, from) == Some(n)
    decreases n - from
  {
    if from < n {
      BalancedEndAt(t, from + 1, n);
    }
  }

  /** As written, `examples = [[1], [2]]` is cut after the first inner
      list, leaving an unbalanced `[[1]`. */
  lemma NestedExamplesCut()
    ensures ExamplesCapture("[[1], [2]]") == Some("[[1]")
    ensures Depth("[[1]") == 1
  {
    FirstPieceOfNested();
    assert "[[1" + "]" == "[[1]";
    CountCharConcat("[[1", "]", '[');
    CountCharConcat("[[1", "]", ']');
  }

  lemma FirstPieceOfNested()
    ensures Split("[[1], [2]]", ']')[0] == "[[1"
  {
    var t := "[[1], [2]]";
    assert ']' !in "[[1";
    assert t == "[[1" + [']'] + t[4..];
    SplitConcat("[[1", t[4..], ']');
  }

  /** The intended capture of `[[1], [2]]` is the whole list. */
  lemma NestedExamplesWhole()
    ensures ExamplesCaptureIntended("[[1], [2]]") == Some("[[1], [2]]")
  {
    var t := "[[1], [2]]";
    var depths := [0, 1, 2, 2, 1, 1, 1, 2, 2, 1, 0];
    forall i | 0 <= i < |t|
      ensures depths[i + 1] == depths[i] + (if t[i] == '[' then 1 else if t[i] == ']' then -1 else 0)
    {
      assert i == 0 || i == 1 || i == 2 || i == 3 || i == 4 || i == 5 || i == 6 || i == 7 || i == 8 || i == 9;
    }
    forall j | 1 <= j < |t| ensures Depth(t[..j]) != 0 {
      DepthPrefixes(t, depths, j);
      assert j == 1 || j == 2 || j == 3 || j == 4 || j == 5 || j == 6 || j == 7 || j == 8 || j == 9;
    }
    DepthPrefixes(t, depths, |t|);
    assert t[..|t|] == t;
    BalancedEndAt(t, 1, |t|);
  }

  /** Depths of the prefixes of `t`, given step by step. */
  lemma {:induction false} DepthPrefixes(t: string, depths: seq<int>, j: nat)
    requires |depths| == |t| + 1 && depths[0] == 0 && j <= |t|
    requires forall i :: 0 <= i < |t| ==>
      depths[i + 1] == depths[i] + (if t[i] == '[' then 1 else if t[i] == ']' then -1 else 0)
    ensures Depth(t[..j]) == depths[j]
  {
    if j > 0 {
      DepthPrefixes(t, depths, j - 1);
      assert t[..j] == t[..j - 1] + [t[j - 1]];
      DepthSnoc(t[..j - 1], t[j - 1]);
    }
  }

  /** A capture that starts with `[[` is never balanced as written, so a
      list of lists of examples never reaches `JSON.parse` whole. */
  lemma NestedCaptureUnbalanced(t: string)
    requires |t| >= 2 && t[0] == '[' && t[1] == '[' && ']' in t
    ensures Depth(ExamplesCapture(t).value) >= 1
  {
    var c := ExamplesCapture(t).value;
    var n := |c|;
    assert c[0] == '[' && c[1] == '[' by { assert t[..n] == c; }
    assert n >= 3;
    assert c == "[[" + c[2..n - 1] + "]";
    CountCharConcat("[[" + c[2..n - 1], "]", '[');
    CountCharConcat("[[" + c[2..n - 1], "]", ']');
    CountCharConcat("[[", c[2..n - 1], '[');
    CountCharConcat("[[", c[2..n - 1], ']');
    assert ']' !in c[2..n - 1] by { assert c[2..n - 1] == c[..n - 1][2..]; }
    CountCharAbsent(c[2..n - 1], ']');
  }

  lemma {:induction false} CountCharAbsent(s: string, c: char)
    requires c !in s
    ensures CountChar(s, c) == 0
  {
    if s != [] {
      assert s[1..] == s[1..];
      CountCharAbsent(s[1..], c);
    }
  }

  /** `.replace(/\s+/g, ' ')`: every run of white space becomes one space. */
  function CollapseSpace(s: string): (r: string)
    ensures |r| <= |s|
    ensures forall k :: 0 <= k < |r| && IsJsSpace(r[k]) ==> r[k] == ' '
  {
    if s == [] then []
    else if IsJsSpace(s[0]) then
      (if |s| > 1 && IsJsSpace(s[1]) then CollapseSpace(s[1..]) else " " + CollapseSpace(s[1..]))
    else [s[0]] + CollapseSpace(s[1..])
  }

  /** Text without white space is left as it is. */
  lemma {:induction false} CollapseWord(s: string)
    requires forall k :: 0 <= k < |s| ==> !IsJsSpace(s[k])
    ensures CollapseSpace(s) == s
  {
    if s != [] {
      CollapseWord(s[1..]);
    }
  }

  /** A run of white space becomes exactly one space. */
  lemma {:induction false} CollapseRun(s: string)
    requires s != [] && forall k :: 0 <= k < |s| ==> IsJsSpace(s[k])
    ensures CollapseSpace(s) == " "
  {
    if |s| > 1 {
      CollapseRun(s[1..]);
    }
  }

  /** Collapsing works piece by piece as long as no run of white space
      spans the cut; with CollapseWord and CollapseRun this fixes the
      result on every text: each maximal run becomes one space and every
      other character is kept, in order. */
  lemma {:induction false} CollapseConcat(a: string, b: string)
    requires a == [] || b == [] || !IsJsSpace(a[|a| - 1]) || !IsJsSpace(b[0])
    ensures CollapseSpace(a + b) == CollapseSpace(a) + CollapseSpace(b)
  {
    if a == [] {
      assert a + b == b;
    } else {
      var c, tail := a[0], a[1..];
      assert tail == [] || b == [] || !IsJsSpace(tail[|tail| - 1]) || !IsJsSpace(b[0]) by {
        if tail != [] {
          assert tail[|tail| - 1] == a[|a| - 1];
        }
      }
      CollapseConcat(tail, b);
      assert a == [c] + tail && a + b == [c] + (tail + b);
      CollapseJoin(c, tail, b);
    }
  }

  /** The step of CollapseConcat: prefixing one character. */
  lemma CollapseJoin(c: char, tail: string, b: string)
    requires tail == [] || b == [] || !IsJsSpace(tail[|tail| - 1]) || !IsJsSpace(b[0])
    requires tail != [] || b == [] || !IsJsSpace(c) || !IsJsSpace(b[0])
    requires CollapseSpace(tail + b) == CollapseSpace(tail) + CollapseSpace(b)
    ensures CollapseSpace([c] + (tail + b)) == CollapseSpace([c] + tail) + CollapseSpace(b)
  {
    var ct, cb := CollapseSpace(tail), CollapseSpace(b);
    CollapseCons(c, tail);
    CollapseCons(c, tail + b);
    if !IsJsSpace(c) {
      SeqAssoc([c], ct, cb);
    } else if tail == [] {
      assert tail + b == b;
    } else if IsJsSpace(tail[0]) {
      assert (tail + b)[0] == tail[0];
    } else {
      assert (tail + b)[0] == tail[0];
      SeqAssoc(" ", ct, cb);
    }
  }

  lemma SeqAssoc(x: string, y: string, z: string)
    ensures x + (y + z) == (x + y) + z
  {
  }

  /** One step of the collapse, at the front of the text. */
  lemma CollapseCons(c: char, t: string)
    ensures CollapseSpace([c] + t) ==
      if !IsJsSpace(c) then [c] + CollapseSpace(t)
      else if t != [] && IsJsSpace(t[0]) then CollapseSpace(t)
      else " " + CollapseSpace(t)
  {
    var s := [c] + t;
    assert s[0] == c && s[1..] == t;
    assert t != [] ==> s[1] == t[0];
  }

  /** Two white-space characters are never adjacent afterwards. */
  lemma {:induction false} CollapseSeparates(s: string, k: nat)
    requires k + 1 < |CollapseSpace(s)|
    ensures !(IsJsSpace(CollapseSpace(s)[k]) && IsJsSpace(CollapseSpace(s)[k + 1]))
  {
    var r := CollapseSpace(s);
    var rest := CollapseSpace(s[1..]);
    if IsJsSpace(s[0]) && |s| > 1 && IsJsSpace(s[1]) {
      CollapseSeparates(s[1..], k);
    } else {
      assert r == [r[0]] + rest;
      if k == 0 {
        if IsJsSpace(s[0]) {
          CollapseStartsWith(s[1..]);
        }
      } else {
        CollapseSeparates(s[1..], k - 1);
      }
    }
  }

  /** The result starts with white space only where the text does. */
  lemma {:induction false} CollapseStartsWith(s: string)
    requires CollapseSpace(s) != []
    ensures IsJsSpace(CollapseSpace(s)[0]) ==> IsJsSpace(s[0])
  {
  }

  /** The text handed to `JSON.parse`: single quotes swapped for double
      quotes, white space collapsed. */
  function JsonText(capture: string): string {
    CollapseSpace(ReplaceChar(capture, '\'', '"'))
  }

  /** The examples after normalisation: a list whose first element is not an
      array has every element wrapped in a one-element array. */
  function NormaliseExamples(items: seq<JsValue>): (r: seq<JsValue>)
    ensures |r| == |items|
    ensures r != [] ==> r[0].JArray?
  {
    if |items| > 0 && !items[0].JArray? then seq(|items|, k requires 0 <= k < |items| => JArray([items[k]]))
    else items
  }

  /** Wrapping loses nothing: each example is the only element of its array. */
  lemma WrappedExamplesKeepValues(items: seq<JsValue>)
    requires |items| > 0 && !items[0].JArray?
    ensures forall k :: 0 <= k < |items| ==> NormaliseExamples(items)[k] == JArray([items[k]])
  {
  }

  /** A list that already starts with an array is kept as it is; as
      written only `[]` gets here, since a nested list is cut short. */
  lemma ArrayExamplesKept(items: seq<JsValue>)
    requires items == [] || items[0].JArray?
    ensures NormaliseExamples(items) == items
  {
  }

  /** `examples`: `[]` without a match and when `JSON.parse` throws (the
      catch only logs); `jsonParse` yields the array parsed, or `None`
      for a syntax error. `bracketAt` is the text from the `[` after the
      first `examples =` that is followed by one. */
  function Examples(bracketAt: Option<string>, jsonParse: string -> Option<seq<JsValue>>): (r: seq<JsValue>)
    ensures bracketAt.None? || ']' !in bracketAt.value ==> r == []
    ensures bracketAt.Some? && ']' in bracketAt.value ==>
      r == match jsonParse(JsonText(ExamplesCapture(bracketAt.value).value))
           case None => []
           case Some(items) => NormaliseExamples(items)
  {
    match bracketAt
    case None => []
    case Some(t) =>
      match ExamplesCapture(t)
      case None => []
      case Some(capture) =>
        match jsonParse(JsonText(capture))
        case None => []
        case Some(items) => NormaliseExamples(items)
  }

  function RunpyEnv(hostname: string, pathname: string): (env: string)
    ensures hostname == "localhost" ==> env == "LOCAL.RUNPY"
    ensures hostname != "localhost" && Contains(Lower(pathname), "preview") ==> env == "PREVIEW.RUNPY"
    ensures hostname != "localhost" && !Contains(Lower(pathname), "preview") ==> env == "BOARDFLARE.RUNPY"
  {
    if hostname == "localhost" then "LOCAL.RUNPY"
    else if Contains(Lower(pathname), "preview") then "PREVIEW.RUNPY"
    else "BOARDFLARE.RUNPY"
  }

  /** The quoted getcode URL the formula passes to the runtime. */
  function CodeRef(uid: string, timestamp: string, name: string): string {
    "\"https://getcode.boardflare.workers.dev/?uid=" + uid + "&timestamp=" + timestamp + "&name=" + name + "&return=code\""
  }

  /** `demoCode ? demoCode.trim() : null`. */
  function Demo(pieces: seq<string>): (d: Option<string>)
    ensures |pieces| < 2 || pieces[1] == "" ==> d == None
    ensures |pieces| >= 2 && pieces[1] != "" ==> d == Some(Trim(pieces[1]))
  {
    if |pieces| >= 2 && pieces[1] != "" then Some(Trim(pieces[1])) else None
  }

  /** The object `parsePython` returns, once the description is known. */
  function Assemble(pieces: seq<string>, m: TP.DefMatch, description: string, bracketAt: Option<string>,
                    jsonParse: string -> Option<seq<JsValue>>, hostname: string, pathname: string,
                    timestamp: string, uuid: string): EditorFunction
    requires pieces != []
  {
    var uid := "ANON:" + uuid;
    var name := Upper(m.name);
    var params := Trim(m.params);
    var args := NonBlank(Split(params, ','));
    var resultLine := "\n\nresult = " + Lower(name) + "(" + ArgList(|args|) + ")";
    var codeRef := CodeRef(uid, timestamp, name);
    EditorFunction(
      name := name,
      signature := name + "(" + params + ")",
      description := description,
      code := Trim(pieces[0]) + resultLine,
      formula := "=LAMBDA(" + params + ", " + RunpyEnv(hostname, pathname) + "(" + codeRef + ", " + params + "))",
      timestamp := timestamp,
      uid := uid,
      demo := Demo(pieces),
      args := args,
      examples := Examples(bracketAt, jsonParse))
  }

  /** `parsePython` as written. `pieces` is
      `rawCode.split(demoCommentPattern)`; `functionMatch`, `docstring` and
      `bracketAt` are the matches of the other patterns on the active code.
      An empty triple-quoted docstring throws from the description
      expression, which no `try` covers. */
  function ParsePython(rawCode: JsValue, pieces: seq<string>, functionMatch: Option<TP.DefMatch>,
                       docstring: DocMatch, bracketAt: Option<string>, jsonParse: string -> Option<seq<JsValue>>,
                       hostname: string, pathname: string, timestamp: string, uuid: string): (r: Completion<EditorFunction>)
    ensures !rawCode.JString? ==> r == Throw(TypeError(NotStringMessage))
    ensures rawCode.JString? && (pieces == [] || pieces[0] == "") ==> r == Throw(Error(NoActiveCodeMessage))
    ensures rawCode.JString? && pieces != [] && pieces[0] != "" && functionMatch.None? ==> r == Throw(Error(NoDefMessage))
    ensures rawCode.JString? && pieces != [] && pieces[0] != "" && functionMatch.Some? && docstring == TripleQuoted("") ==>
      r == Throw(TypeError(UndefinedTrimMessage))
    ensures rawCode.JString? && pieces != [] && pieces[0] != "" && functionMatch.Some? && docstring != TripleQuoted("") ==>
      r.Normal?
    ensures r.Normal? ==> r.value.name == Upper(functionMatch.value.name)
    ensures r.Normal? ==> r.value.args == NonBlank(Split(Trim(functionMatch.value.params), ','))
    ensures r.Normal? ==> r.value.code == Trim(pieces[0]) + TP.ResultLine(r.value.name, |r.value.args|)
    ensures r.Normal? ==> r.value.signature == r.value.name + "(" + Trim(functionMatch.value.params) + ")"
    ensures r.Normal? ==> r.value.uid == "ANON:" + uuid && r.value.timestamp == timestamp
    ensures r.Normal? ==>
      var params := Trim(functionMatch.value.params);
      r.value.formula == "=LAMBDA(" + params + ", " + RunpyEnv(hostname, pathname) + "("
                         + CodeRef(r.value.uid, timestamp, r.value.name) + ", " + params + "))"
    ensures r.Normal? ==> DescriptionAsWritten(docstring) == Normal(r.value.description)
    ensures r.Normal? ==> r.value.examples == Examples(bracketAt, jsonParse) && r.value.demo == Demo(pieces)
  {
    if !rawCode.JString? then Throw(TypeError(NotStringMessage))
    else if pieces == [] || pieces[0] == "" then Throw(Error(NoActiveCodeMessage))
    else if functionMatch.None? then Throw(Error(NoDefMessage))
    else
      match DescriptionAsWritten(docstring)
      case Throw(e) => Throw(e)
      case Normal(description) =>
        Normal(Assemble(pieces, functionMatch.value, description, bracketAt, jsonParse, hostname, pathname, timestamp, uuid))
  }

  /** `parsePython` with the corrected description: it fails only on the
      three checks, and on every other input it is the code as written. */
  function ParsePythonIntended(rawCode: JsValue, pieces: seq<string>, functionMatch: Option<TP.DefMatch>,
                               docstring: DocMatch, bracketAt: Option<string>, jsonParse: string -> Option<seq<JsValue>>,
                               hostname: string, pathname: string, timestamp: string, uuid: string): (r: Completion<EditorFunction>)
    ensures r.Normal? <==> rawCode.JString? && pieces != [] && pieces[0] != "" && functionMatch.Some?
    ensures r.Normal? ==> r.value.description == Description(docstring)
    ensures docstring != TripleQuoted("") ==>
      r == ParsePython(rawCode, pieces, functionMatch, docstring, bracketAt, jsonParse, hostname, pathname, timestamp, uuid)
  {
    if !rawCode.JString? || pieces == [] || pieces[0] == "" || functionMatch.None? then
      ParsePython(rawCode, pieces, functionMatch, docstring, bracketAt, jsonParse, hostname, pathname, timestamp, uuid)
    else
      DescriptionDiscrepancy(docstring);
      Normal(Assemble(pieces, functionMatch.value, Description(docstring), bracketAt, jsonParse, hostname, pathname, timestamp, uuid))
  }

  /** The empty triple-quoted docstring is the one input on which the two
      differ: as written it throws, as intended the description is empty. */
  lemma EmptyDocstringThrows(rawCode: JsValue, pieces: seq<string>, m: TP.DefMatch,
                             bracketAt: Option<string>, jsonParse: string -> Option<seq<JsValue>>,
                             hostname: string, pathname: string, timestamp: string, uuid: string)
    requires rawCode.JString? && pieces != [] && pieces[0] != ""
    ensures ParsePython(rawCode, pieces, Some(m), TripleQuoted(""), bracketAt, jsonParse, hostname, pathname, timestamp, uuid)
            == Throw(TypeError(UndefinedTrimMessage))
    ensures var r := ParsePythonIntended(rawCode, pieces, Some(m), TripleQuoted(""), bracketAt, jsonParse, hostname, pathname, timestamp, uuid);
      r.Normal? && r.value.description == ""
  {
    var doc := TripleQuoted("");
    assert ParsePython(rawCode, pieces, Some(m), doc, bracketAt, jsonParse, hostname, pathname, timestamp, uuid)
           == Throw(TypeError(UndefinedTrimMessage));
    var r := ParsePythonIntended(rawCode, pieces, Some(m), doc, bracketAt, jsonParse, hostname, pathname, timestamp, uuid);
    assert r.Normal? && r.value.description == Description(doc);
    assert Description(doc) == "" by {
      DescriptionDiscrepancy(doc);
    }
  }

  /** Given the same `def` match, the editor appends exactly the call line
      the taskpane parser returns separately: the upper-cased name is
      lower-cased again, and both count the non-blank parameter pieces. */
  lemma SameCallLineAsTaskpane(rawCode: JsValue, pieces: seq<string>, m: TP.DefMatch, docstring: DocMatch,
                               bracketAt: Option<string>, jsonParse: string -> Option<seq<JsValue>>, hostname: string, pathname: string, timestamp: string,
                               uuid: string, tpDoc: Option<string>)
    requires rawCode.JString? && pieces != [] && pieces[0] != ""
    ensures var r := ParsePython(rawCode, pieces, Some(m), docstring, bracketAt, jsonParse, hostname, pathname, timestamp, uuid);
      var t := TP.ParsePython(rawCode, Some(m), tpDoc, hostname, timestamp).value;
      r.Normal? ==> r.value.code == Trim(pieces[0]) + t.resultLine
  {
    var r := ParsePython(rawCode, pieces, Some(m), docstring, bracketAt, jsonParse, hostname, pathname, timestamp, uuid);
    var e := Assemble(pieces, m, "", bracketAt, jsonParse, hostname, pathname, timestamp, uuid);
    var t := TP.ParsePython(rawCode, Some(m), tpDoc, hostname, timestamp).value;
    LowerUpper(m.name);
    LowerIdempotent(m.name);
    assert |e.args| == |TP.ArgsOf(Trim(m.params))|;
    assert Lower(e.name) == Lower(t.name);
  }
}
