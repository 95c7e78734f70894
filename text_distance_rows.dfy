/** examples/text/text_distance/text_distance.py: like the pairs variant,
    but every needle's pairs are laid out in one row
    `position, score, position, score, ...`, and a single row is returned
    unwrapped. */
module TextDistanceRows {
  import opened Strings
  import opened PyValues
  import opened TextRanking

  /** The return value: one row, or a list of rows. */
  datatype Output = SingleRow(row: seq<int>) | Rows(rows: seq<seq<int>>)

  predicate Interleaves(row: seq<int>, top: seq<Scored>) {
    |row| == 2 * |top| && forall k :: 0 <= k < |top| ==> row[2 * k] == top[k].position && row[2 * k + 1] == top[k].score
  }

  /** The `row.extend(list(score))` loop. */
  method RowOf(top: seq<Scored>) returns (row: seq<int>)
    ensures Interleaves(row, top)
  {
    row := [];
    for i := 0 to |top|
      invariant Interleaves(row, top[..i])
    {
      row := row + [top[i].position, top[i].score];
    }
    assert top[..|top|] == top;
  }

  ghost predicate IsRowEntry(row: seq<int>, needle: string, hay: seq<string>,
                       similarity: (string, string) -> int, topN: int) {
    if PyStrip(needle) == "" then row == []
    else exists top :: IsTopRanking(top, ScoreList(needle, hay, similarity), topN) && Interleaves(row, top)
  }

  /** The `for needle_item in needle_flat` loop. */
  method RowEntries(needles: seq<string>, texts: seq<string>, similarity: (string, string) -> int, topN: int)
    returns (results: seq<seq<int>>)
    ensures |results| == |needles|
    ensures forall k :: 0 <= k < |needles| ==> IsRowEntry(results[k], needles[k], texts, similarity, topN)
  {
    results := [];
    for i := 0 to |needles|
      invariant |results| == i
      invariant forall k :: 0 <= k < i ==> IsRowEntry(results[k], needles[k], texts, similarity, topN)
    {
      var row: seq<int> := [];
      if PyStrip(needles[i]) != "" {
        var top := RankNeedle(needles[i], texts, similarity, topN);
        row := RowOf(top);
      }
      results := Append(results, row);
    }
  }

  /** `text_distance`, row format. */
  method TextDistance(needle: PyValue, haystack: PyValue, similarity: (string, string) -> int,
                      render: PyValue -> string, topN: int)
    returns (r: PyResult<Output>)
    ensures NeedleItems(needle).Raised? ==> r == Raised(NeedleItems(needle).error)
    ensures NeedleItems(needle).Ok? && Flatten(haystack).Raised? ==> r == Raised(Flatten(haystack).error)
    ensures NeedleItems(needle).Ok? && Flatten(haystack) == Ok([]) ==>
      r.Ok? && r.value.Rows? && |r.value.rows| == |NeedleItems(needle).value|
      && forall k :: 0 <= k < |r.value.rows| ==> r.value.rows[k] == []
    ensures NeedleItems(needle).Ok? && Flatten(haystack).Ok? && Flatten(haystack).value != []
            && |NeedleItems(needle).value| == 1 ==>
      r.Ok? && r.value.SingleRow?
      && IsRowEntry(r.value.row, StrOf(NeedleItems(needle).value[0], render), Texts(Flatten(haystack).value, render), similarity, topN)
    ensures NeedleItems(needle).Ok? && Flatten(haystack).Ok? && Flatten(haystack).value != []
            && |NeedleItems(needle).value| != 1 ==>
      r.Ok? && r.value.Rows? && |r.value.rows| == |NeedleItems(needle).value|
      && forall k :: 0 <= k < |r.value.rows| ==>
           IsRowEntry(r.value.rows[k], StrOf(NeedleItems(needle).value[k], render), Texts(Flatten(haystack).value, render), similarity, topN)
  {
    var needles := NeedleItems(needle);
    if needles.Raised? {
      return Raised(needles.error);
    }
    var hay := Flatten(haystack);
    if hay.Raised? {
      return Raised(hay.error);
    }
    if hay.value == [] {
      return Ok(Rows(seq(|needles.value|, _ => [])));
    }
    var results := RowEntries(Texts(needles.value, render), Texts(hay.value, render), similarity, topN);
    if |results| == 1 {
      r := Ok(SingleRow(results[0]));
    } else {
      r := Ok(Rows(results));
    }
  }

  /** With a non-negative `top_n` a non-blank needle's row has two numbers
      for each of min(top_n, number of haystack items) matches. */
  lemma RowLength(row: seq<int>, needle: string, hay: seq<string>, similarity: (string, string) -> int, topN: int)
    requires topN >= 0 && PyStrip(needle) != ""
    requires IsRowEntry(row, needle, hay, similarity, topN)
    ensures |row| == 2 * (if topN < |hay| then topN else |hay|)
  {
  }
}
