/** The ranking both `text_distance` examples share: needles and haystack
    are flattened with Python's iteration (`for sublist in v for item in
    sublist`) without `None`, every haystack item is scored against a
    needle, and the scores are sorted best first (Python's stable
    `list.sort(key=score, reverse=True)`) and cut with `[:top_n]`.
    The similarity measure is a parameter that returns the rounded score
    in hundredths; `str()` of a non-string cell is a parameter too. */
module TextRanking {
  import opened Strings
  import opened PyValues

  /** The cells of one row that are not `None`, in order. */
  function PresentInRow(row: seq<PyValue>): (r: seq<PyValue>)
    ensures |r| <= |row|
    ensures forall v :: v in r <==> v in row && v != VNone
  {
    if row == [] then []
    else
      assert row == [row[0]] + row[1..];
      if row[0] == VNone then PresentInRow(row[1..]) else [row[0]] + PresentInRow(row[1..])
  }

  /** `[item for sublist in rows for item in sublist if item is not None]`. */
  function Present(rows: seq<seq<PyValue>>): (r: seq<PyValue>)
    ensures forall v :: v in r ==> v != VNone
    ensures forall i, v :: 0 <= i < |rows| && v in rows[i] && v != VNone ==> v in r
  {
    if rows == [] then []
    else
      var r := PresentInRow(rows[0]) + Present(rows[1..]);
      assert forall i :: 1 <= i < |rows| ==> rows[i] == rows[1..][i - 1];
      r
  }

  /** Every flattened item comes from some row. */
  lemma {:induction false} PresentFromRows(rows: seq<seq<PyValue>>, v: PyValue)
    requires v in Present(rows)
    ensures exists i :: 0 <= i < |rows| && v in rows[i]
  {
    if v !in PresentInRow(rows[0]) {
      PresentFromRows(rows[1..], v);
      var i :| 0 <= i < |rows[1..]| && v in rows[1..][i];
      assert v in rows[i + 1];
    }
  }

  lemma {:induction false} PresentConcat(a: seq<seq<PyValue>>, b: seq<seq<PyValue>>)
    ensures Present(a + b) == Present(a) + Present(b)
  {
    if a == [] {
      assert a + b == b;
    } else {
      assert (a + b)[0] == a[0];
      assert (a + b)[1..] == a[1..] + b;
      PresentConcat(a[1..], b);
    }
  }

  /** The type name CPython prints in the message of a value that cannot
      be iterated: the qualified name for the extension types. */
  function TypeName(v: PyValue): string {
    match v
    case VNone => "NoneType"
    case VInt(_) => "int"
    case VFloat(_) => "float"
    case VBool(_) => "bool"
    case VDateTime(_, _) => "datetime.datetime"
    case VDate(_) => "datetime.date"
    case VNpScalar(_, isFloat64) => if isFloat64 then "numpy.float64" else "numpy.int64"
    case VDataFrame(_) => "DataFrame"
    case VOther(name) => name
    case _ => "object"
  }

  /** `for item in v`: a string yields its characters, a list or tuple its
      items, a dict its keys, a Series its values and an array its
      elements (an n-dimensional array its rows); anything else raises
      `TypeError`. */
  function Iterate(v: PyValue): (r: PyResult<seq<PyValue>>)
    ensures v.VStr? ==> r == Ok(Chars(v.s))
    ensures v.VList? || v.VTuple? ==> r == Ok(v.items)
    ensures v.VDict? ==>
              r.Ok? && |r.value| == |v.entries| && forall k :: 0 <= k < |v.entries| ==> r.value[k] == v.entries[k].0
    ensures v.VNone? || v.VInt? || v.VFloat? || v.VBool? || v.VDateTime? || v.VDate? || v.VNpScalar? ==>
            r == Raised(TypeError("'" + TypeName(v) + "' object is not iterable"))
  {
    match v
    case VStr(s) => Ok(Chars(s))
    case VList(items) => Ok(items)
    case VTuple(items) => Ok(items)
    case VDict(entries) => Ok(seq(|entries|, k requires 0 <= k < |entries| => entries[k].0))
    case VSeries(column) => Ok(column)
    case VNdArray1(elements) => Ok(elements)
    case VNdArrayN(nested) => Ok(seq(|nested|, k requires 0 <= k < |nested| => VNdArray1(nested[k])))
    case VNdArray0(_) => Raised(TypeError("iteration over a 0-d array"))
    case _ => Raised(TypeError("'" + TypeName(v) + "' object is not iterable"))
  }

  /** `[item for sublist in subs for item in sublist if item is not None]`
      over the already iterated outer level: it raises exactly when some
      sublist cannot be iterated, and keeps no `None`. */
  function FlattenItems(subs: seq<PyValue>): (r: PyResult<seq<PyValue>>)
    ensures r.Ok? <==> forall k :: 0 <= k < |subs| ==> Iterate(subs[k]).Ok?
    ensures r.Ok? ==> forall v :: v in r.value ==> v != VNone
  {
    if subs == [] then Ok([])
    else
      match Iterate(subs[0])
      case Raised(e) => Raised(e)
      case Ok(items) =>
        match FlattenItems(subs[1..])
        case Raised(e) =>
          Raised(e)
        case Ok(rest) =>
          assert forall k :: 1 <= k < |subs| ==> subs[k] == subs[1..][k - 1];
          Ok(PresentInRow(items) + rest)
  }

  /** Both levels of the comprehension, the outer one first. */
  function Flatten(v: PyValue): (r: PyResult<seq<PyValue>>)
    ensures Iterate(v).Raised? ==> r == Raised(Iterate(v).error)
    ensures Iterate(v).Ok? ==> r == FlattenItems(Iterate(v).value)
  {
    match Iterate(v)
    case Raised(e) => Raised(e)
    case Ok(subs) => FlattenItems(subs)
  }

  /** The error raised is that of the first sublist that cannot be iterated. */
  lemma {:induction false} FlattenRaisesFirstFailure(subs: seq<PyValue>, k: nat)
    requires k < |subs| && Iterate(subs[k]).Raised?
    requires forall j :: 0 <= j < k ==> Iterate(subs[j]).Ok?
    ensures FlattenItems(subs) == Raised(Iterate(subs[k]).error)
    decreases k
  {
    if k > 0 {
      assert Iterate(subs[0]).Ok?;
      assert forall j :: 0 <= j < k - 1 ==> subs[1..][j] == subs[j + 1];
      FlattenRaisesFirstFailure(subs[1..], k - 1);
    }
  }

  /** The rows of a 2-D list, as lists. */
  function ListRows(rows: seq<seq<PyValue>>): (r: seq<PyValue>)
    ensures |r| == |rows| && forall k :: 0 <= k < |rows| ==> r[k] == VList(rows[k])
  {
    seq(|rows|, k requires 0 <= k < |rows| => VList(rows[k]))
  }

  lemma {:induction false} FlattenListRows(rows: seq<seq<PyValue>>)
    ensures FlattenItems(ListRows(rows)) == Ok(Present(rows))
  {
    if rows != [] {
      assert ListRows(rows)[1..] == ListRows(rows[1..]);
      FlattenListRows(rows[1..]);
    }
  }

  /** On a range that arrives as a list of rows the comprehension is the
      row-major list of the cells that are not `None`. */
  lemma GridFlatten(rows: seq<seq<PyValue>>)
    ensures Flatten(GridValue(rows)) == Ok(Present(rows))
  {
    assert GridValue(rows).items == ListRows(rows);
    FlattenListRows(rows);
  }

  lemma {:induction false} FlattenChars(s: string)
    ensures FlattenItems(Chars(s)) == Ok(Chars(s))
  {
    if s != [] {
      assert Iterate(Chars(s)[0]) == Ok([VStr([s[0]])]) by {
        assert Chars([s[0]]) == [VStr([s[0]])];
      }
      assert PresentInRow([VStr([s[0]])]) == [VStr([s[0]])] by {
        assert PresentInRow([VStr([s[0]])][1..]) == [];
      }
      assert Chars(s)[1..] == Chars(s[1..]);
      FlattenChars(s[1..]);
      assert Chars(s) == [VStr([s[0]])] + Chars(s[1..]);
    }
  }

  /** A string given where a range is expected falls apart into its
      characters: each character is a one-character string, whose
      iteration is itself. */
  lemma StringFlattensToChars(s: string)
    ensures Flatten(VStr(s)) == Ok(Chars(s))
  {
    FlattenChars(s);
  }

  /** The cells the comprehension evidently intends: a single cell counts
      as a one-cell range, and a row that is a single value as that value. */
  function CellsIntended(v: PyValue): (r: seq<PyValue>)
    ensures !(v.VList? || v.VTuple?) ==> r == (if v == VNone then [] else [v])
    ensures forall c :: c in r ==> c != VNone
  {
    if v.VList? || v.VTuple? then RowCells(v.items) else if v == VNone then [] else [v]
  }

  function RowCells(subs: seq<PyValue>): (r: seq<PyValue>)
    ensures forall c :: c in r ==> c != VNone
  {
    if subs == [] then []
    else
      var head := if subs[0].VList? || subs[0].VTuple? then PresentInRow(subs[0].items)
                  else if subs[0] == VNone then [] else [subs[0]];
      head + RowCells(subs[1..])
  }

  lemma {:induction false} RowCellsListRows(rows: seq<seq<PyValue>>)
    ensures RowCells(ListRows(rows)) == Present(rows)
  {
    if rows != [] {
      assert ListRows(rows)[1..] == ListRows(rows[1..]);
      RowCellsListRows(rows[1..]);
    }
  }

  /** The intended cells agree with the comprehension on every list of
      rows. */
  lemma CellsIntendedOnGrids(rows: seq<seq<PyValue>>)
    ensures Flatten(GridValue(rows)) == Ok(CellsIntended(GridValue(rows)))
  {
    GridFlatten(rows);
    assert GridValue(rows).items == ListRows(rows);
    RowCellsListRows(rows);
  }

  /** As written, a one-cell haystack `"apple"` becomes five one-letter
      items; the intended cells keep it as one. */
  lemma StringCellDiscrepancy()
    ensures Flatten(VStr("apple")) == Ok([VStr("a"), VStr("p"), VStr("p"), VStr("l"), VStr("e")])
    ensures CellsIntended(VStr("apple")) == [VStr("apple")]
  {
    AppleChars();
    StringFlattensToChars("apple");
  }

  lemma AppleChars()
    ensures Chars("apple") == [VStr("a"), VStr("p"), VStr("p"), VStr("l"), VStr("e")]
  {
    var c := Chars("apple");
    assert c[0] == VStr("a") && c[1] == VStr("p") && c[2] == VStr("p") && c[3] == VStr("l") && c[4] == VStr("e");
  }

  /** As written, a one-cell number raises; the intended cells keep it. */
  lemma NumberCellDiscrepancy()
    ensures Flatten(VInt(5)) == Raised(TypeError("'int' object is not iterable"))
    ensures CellsIntended(VInt(5)) == [VInt(5)]
  {
    assert "'" + TypeName(VInt(5)) + "' object is not iterable" == "'int' object is not iterable";
  }

  /** The needles: a string counts only when it is not blank; anything
      else goes through the comprehension. */
  function NeedleItems(needle: PyValue): (r: PyResult<seq<PyValue>>)
    ensures needle.VStr? ==> (r == Ok([]) <==> PyStrip(needle.s) == "")
    ensures needle.VStr? && PyStrip(needle.s) != "" ==> r == Ok([needle])
    ensures !needle.VStr? ==> r == Flatten(needle)
  {
    if needle.VStr? then (if PyStrip(needle.s) != "" then Ok([needle]) else Ok([]))
    else Flatten(needle)
  }

  /** `str(item)`. */
  function StrOf(v: PyValue, render: PyValue -> string): string {
    if v.VStr? then v.s else render(v)
  }

  function Texts(items: seq<PyValue>, render: PyValue -> string): (r: seq<string>)
    ensures |r| == |items| && forall k :: 0 <= k < |items| ==> r[k] == StrOf(items[k], render)
  {
    seq(|items|, k requires 0 <= k < |items| => StrOf(items[k], render))
  }

  /** `results.append(entry)`. */
  function Append<T>(s: seq<T>, x: T): (r: seq<T>)
    ensures |r| == |s| + 1 && r[|s|] == x && forall k :: 0 <= k < |s| ==> r[k] == s[k]
  {
    s + [x]
  }

  /** A `(position, score)` pair; `position` is 1-based. */
  datatype Scored = Scored(position: int, score: int)

  /** The comprehension that scores a needle against every haystack item. */
  function ScoreList(needle: string, hay: seq<string>, similarity: (string, string) -> int): (r: seq<Scored>)
    ensures |r| == |hay|
    ensures forall k :: 0 <= k < |hay| ==> r[k] == Scored(k + 1, similarity(needle, hay[k]))
  {
    seq(|hay|, k requires 0 <= k < |hay| => Scored(k + 1, similarity(needle, hay[k])))
  }

  /** The order the stable descending sort leaves pairs in: higher score
      first, and among equal scores the earlier haystack position. */
  predicate Precedes(x: Scored, y: Scored) {
    x.score > y.score || (x.score == y.score && x.position <= y.position)
  }

  predicate Ranked(s: seq<Scored>) {
    forall i, j :: 0 <= i < j < |s| ==> Precedes(s[i], s[j])
  }

  /** The length of `s[:n]` for a list of length `len`, negative `n`
      counting from the end as Python slices do. */
  function SliceLength(n: int, len: nat): (r: nat)
    ensures r <= len
    ensures n >= 0 ==> r == if n < len then n else len
    ensures n < 0 ==> r == if len + n > 0 then len + n else 0
  {
    if n >= 0 then (if n < len then n else len)
    else if len + n > 0 then len + n else 0
  }

  /** `top` is `sorted(scores, best first)[:top_n]`: the right number of
      pairs, in rank order, taken from the scores, and no pair left out
      ranks before one kept. */
  predicate IsTopRanking(top: seq<Scored>, scores: seq<Scored>, topN: int) {
    && |top| == SliceLength(topN, |scores|)
    && Ranked(top)
    && multiset(top) <= multiset(scores)
    && forall k, j :: 0 <= k < |top| && 0 <= j < |scores| && scores[j] !in top ==> Precedes(top[k], scores[j])
  }

  /** Insertion sort into rank order, standing in for `scores.sort`. */
  method SortByRank(a: array<Scored>)
    modifies a
    ensures Ranked(a[..])
    ensures multiset(a[..]) == multiset(old(a[..]))
  {
    var i := 0;
    while i < a.Length
      invariant 0 <= i <= a.Length
      invariant Ranked(a[..i])
      invariant multiset(a[..]) == multiset(old(a[..]))
    {
      InsertLast(a, i);
      i := i + 1;
    }
    assert a[..i] == a[..];
  }

  /** One pass of the insertion sort: moves `a[i]` down into the ranked
      prefix `a[..i]`, leaving `a[..i + 1]` ranked and the rest in place. */
  method InsertLast(a: array<Scored>, i: int)
    requires 0 <= i < a.Length && Ranked(a[..i])
    modifies a
    ensures Ranked(a[..i + 1])
    ensures multiset(a[..]) == multiset(old(a[..]))
  {
    var j := i;
    while j > 0 && !Precedes(a[j - 1], a[j])
      invariant 0 <= j <= i
      invariant forall p, q :: 0 <= p < q <= i && p != j && q != j ==> Precedes(a[p], a[q])
      invariant forall q :: j < q <= i ==> Precedes(a[j], a[q])
      invariant multiset(a[..]) == multiset(old(a[..]))
    {
      a[j - 1], a[j] := a[j], a[j - 1];
      j := j - 1;
    }
  }

  /** Scores one needle, sorts the pairs and keeps the first `top_n`. */
  method RankNeedle(needle: string, hay: seq<string>, similarity: (string, string) -> int, topN: int)
    returns (top: seq<Scored>)
    ensures IsTopRanking(top, ScoreList(needle, hay, similarity), topN)
  {
    var scores := ScoreList(needle, hay, similarity);
    var a := new Scored[|hay|](k requires 0 <= k < |hay| => scores[k]);
    assert a[..] == scores;
    SortByRank(a);
    var sorted := a[..];
    var n := SliceLength(topN, a.Length);
    top := sorted[..n];
    forall i, j | 0 <= i < j < |top| ensures Precedes(top[i], top[j]) {
      assert top[i] == sorted[i] && top[j] == sorted[j];
    }
    assert sorted == top + sorted[n..];
    assert multiset(sorted) == multiset(top) + multiset(sorted[n..]);
    forall k, j | 0 <= k < |top| && 0 <= j < |scores| && scores[j] !in top
      ensures Precedes(top[k], scores[j])
    {
      assert scores[j] in multiset(sorted);
      var m :| 0 <= m < |sorted| && sorted[m] == scores[j];
      assert m >= n;
    }
  }

  /** Every kept pair names a haystack item by its 1-based position and
      carries that item's score. */
  lemma RankingNamesItems(top: seq<Scored>, needle: string, hay: seq<string>, similarity: (string, string) -> int, topN: int)
    requires IsTopRanking(top, ScoreList(needle, hay, similarity), topN)
    ensures forall k :: 0 <= k < |top| ==>
      1 <= top[k].position <= |hay| && top[k].score == similarity(needle, hay[top[k].position - 1])
  {
    var scores := ScoreList(needle, hay, similarity);
    forall k | 0 <= k < |top|
      ensures 1 <= top[k].position <= |hay| && top[k].score == similarity(needle, hay[top[k].position - 1])
    {
      assert top[k] in multiset(top);
      assert top[k] in multiset(scores);
      var j :| 0 <= j < |scores| && scores[j] == top[k];
    }
  }

  /** Pairs with equal scores keep haystack order, as a stable sort does. */
  lemma TiesKeepHaystackOrder(top: seq<Scored>, scores: seq<Scored>, topN: int, i: int, j: int)
    requires IsTopRanking(top, scores, topN)
    requires 0 <= i < j < |top| && top[i].score == top[j].score
    ensures top[i].position <= top[j].position
  {
  }

  /** A haystack item whose score beats a kept pair's is kept too. */
  lemma BetterItemsAreKept(top: seq<Scored>, scores: seq<Scored>, topN: int, k: int, j: int)
    requires IsTopRanking(top, scores, topN)
    requires 0 <= k < |top| && 0 <= j < |scores| && scores[j].score > top[k].score
    ensures scores[j] in top
  {
  }

  /** All orderings that satisfy the ranking agree, so the kept pairs are
      determined by the scores alone. */
  lemma {:induction false} RankedPermutationUnique(s: seq<Scored>, t: seq<Scored>)
    requires Ranked(s) && Ranked(t) && multiset(s) == multiset(t)
    ensures s == t
    decreases |s|
  {
    if s != [] {
      assert s[0] in multiset(t);
      assert t[0] in multiset(s);
      var i :| 0 <= i < |t| && t[i] == s[0];
      var j :| 0 <= j < |s| && s[j] == t[0];
      assert Precedes(s[0], s[j]) && Precedes(t[0], t[i]);
      assert s[0] == t[0];
      assert s == [s[0]] + s[1..];
      assert t == [t[0]] + t[1..];
      assert multiset(s) == multiset{s[0]} + multiset(s[1..]);
      assert multiset(t) == multiset{t[0]} + multiset(t[1..]);
      assert multiset(s[1..]) == multiset(s) - multiset{s[0]};
      assert multiset(t[1..]) == multiset(t) - multiset{t[0]};
      RankedPermutationUnique(s[1..], t[1..]);
    }
  }
}
