/** `matrixToObject` of src/functions/utils/common.js: a two-column range
    becomes a JavaScript object mapping each first cell to its second. */
module Common {
  import opened Wrappers
  import opened Strings
  import opened JsValues

  /** ECMAScript ToPropertyKey for the values a range holds. Number
      formatting (Number::toString) is a parameter; an array key is its
      elements joined with ",", with `null` and `undefined` as "". */
  function PropertyKey(v: JsValue, numberToString: real -> string): (r: string)
    ensures v.JString? ==> r == v.s
    ensures v.JBool? ==> r == (if v.b then "true" else "false")
    ensures v == JArray([]) ==> r == ""
    decreases v
  {
    match v
    case JUndefined => "undefined"
    case JNull => "null"
    case JNumber(x) => numberToString(x)
    case JString(s) => s
    case JBool(b) => if b then "true" else "false"
    case JArray(items) =>
      Join(seq(|items|, i requires 0 <= i < |items| =>
             if items[i].JUndefined? || items[i].JNull? then "" else PropertyKey(items[i], numberToString)), ",")
    case JObject => "[object Object]"
  }

  /** An array whose every row is an array of exactly two cells. */
  predicate IsPairMatrix(m: JsValue) {
    m.JArray? && forall k :: 0 <= k < |m.items| ==> m.items[k].JArray? && |m.items[k].items| == 2
  }

  predicate AllPairs(rows: seq<JsValue>) {
    forall k :: 0 <= k < |rows| ==> rows[k].JArray? && |rows[k].items| == 2
  }

  function KeyOf(row: JsValue, numberToString: real -> string): string
    requires row.JArray? && |row.items| == 2
  {
    PropertyKey(row.items[0], numberToString)
  }

  /** The own properties after `result[key] = value` for every row in order.
      Assigning to `__proto__` sets the prototype and creates no own property. */
  function ObjectFrom(rows: seq<JsValue>, numberToString: real -> string): (r: map<string, JsValue>)
    requires AllPairs(rows)
    ensures "__proto__" !in r
  {
    if rows == [] then map[]
    else
      var n := |rows| - 1;
      var earlier := ObjectFrom(rows[..n], numberToString);
      var key := KeyOf(rows[n], numberToString);
      if key == "__proto__" then earlier else earlier[key := rows[n].items[1]]
  }

  /** The object's keys are the first-column keys, except `__proto__`. */
  lemma {:induction false} ObjectFromKeys(rows: seq<JsValue>, numberToString: real -> string)
    requires AllPairs(rows)
    ensures ObjectFrom(rows, numberToString).Keys
            == (set k | 0 <= k < |rows| :: KeyOf(rows[k], numberToString)) - {"__proto__"}
  {
    if rows != [] {
      var n := |rows| - 1;
      ObjectFromKeys(rows[..n], numberToString);
      assert forall k :: 0 <= k < n ==> rows[..n][k] == rows[k];
      var before := set k | 0 <= k < n :: KeyOf(rows[..n][k], numberToString);
      var all := set k | 0 <= k < |rows| :: KeyOf(rows[k], numberToString);
      assert before == set k | 0 <= k < n :: KeyOf(rows[k], numberToString);
      assert all == before + {KeyOf(rows[n], numberToString)};
    }
  }

  /** A key's value comes from the last row that has that key. */
  lemma {:induction false} LastRowWins(rows: seq<JsValue>, numberToString: real -> string, k: nat)
    requires AllPairs(rows) && k < |rows|
    requires KeyOf(rows[k], numberToString) != "__proto__"
    requires forall j :: k < j < |rows| ==> KeyOf(rows[j], numberToString) != KeyOf(rows[k], numberToString)
    ensures KeyOf(rows[k], numberToString) in ObjectFrom(rows, numberToString)
    ensures ObjectFrom(rows, numberToString)[KeyOf(rows[k], numberToString)] == rows[k].items[1]
  {
    var n := |rows| - 1;
    if k < n {
      assert rows[..n][k] == rows[k];
      assert forall j :: k < j < n ==> rows[..n][j] == rows[j];
      LastRowWins(rows[..n], numberToString, k);
    }
  }

  /** `matrixToObject`: null unless the input is an array of two-element
      arrays; otherwise the object the `forEach` builds. */
  method MatrixToObject(matrix: JsValue, numberToString: real -> string) returns (r: Option<map<string, JsValue>>)
    ensures r.None? <==> !IsPairMatrix(matrix)
    ensures r.Some? ==> r.value == ObjectFrom(matrix.items, numberToString)
  {
    if !matrix.JArray? || exists k :: 0 <= k < |matrix.items| && !(matrix.items[k].JArray? && |matrix.items[k].items| == 2) {
      return None;
    }
    var rows := matrix.items;
    var result: map<string, JsValue> := map[];
    var i := 0;
    while i < |rows|
      invariant 0 <= i <= |rows|
      invariant result == ObjectFrom(rows[..i], numberToString)
    {
      assert rows[..i + 1][..i] == rows[..i];
      var key := PropertyKey(rows[i].items[0], numberToString);
      var value := rows[i].items[1];
      if key != "__proto__" {
        result := result[key := value];
      }
      i := i + 1;
    }
    assert rows[..i] == rows;
    return Some(result);
  }
}
