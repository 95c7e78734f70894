/** examples/files/text/text_distance/text_distance.py: for every needle
    the best `top_n` haystack items as `[position, score]` pairs. */
module TextDistancePairs {
  import opened Strings
  import opened PyValues
  import opened TextRanking

  /** What the entry of one needle is: empty for a blank needle, otherwise
      the top pairs of its scores. */
  predicate IsPairsEntry(entry: seq<Scored>, needle: string, hay: seq<string>,
                         similarity: (string, string) -> int, topN: int) {
    if PyStrip(needle) == "" then entry == []
    else IsTopRanking(entry, ScoreList(needle, hay, similarity), topN)
  }

  /** The `for needle_item in needle_flat` loop. */
  method Entries(needles: seq<string>, texts: seq<string>, similarity: (string, string) -> int, topN: int)
    returns (results: seq<seq<Scored>>)
    ensures |results| == |needles|
    ensures forall k :: 0 <= k < |needles| ==> IsPairsEntry(results[k], needles[k], texts, similarity, topN)
  {
    results := [];
    for i := 0 to |needles|
      invariant |results| == i
      invariant forall k :: 0 <= k < i ==> IsPairsEntry(results[k], needles[k], texts, similarity, topN)
    {
      var entry: seq<Scored> := [];
      if PyStrip(needles[i]) != "" {
        entry := RankNeedle(needles[i], texts, similarity, topN);
      }
      assert IsPairsEntry(entry, needles[i], texts, similarity, topN);
      var next := Append(results, entry);
      forall k | 0 <= k < i + 1 ensures IsPairsEntry(next[k], needles[k], texts, similarity, topN) {
        if k < i {
          assert next[k] == results[k];
        } else {
          assert next[k] == entry;
        }
      }
      results := next;
    }
  }

  /** `text_distance`; `similarity` is the chosen algorithm's rounded
      normalised similarity in hundredths and `render` is `str()`. The
      needle is flattened first, so its error wins. */
  method TextDistance(needle: PyValue, haystack: PyValue, similarity: (string, string) -> int,
                      render: PyValue -> string, topN: int)
    returns (r: PyResult<seq<seq<Scored>>>)
    ensures NeedleItems(needle).Raised? ==> r == Raised(NeedleItems(needle).error)
    ensures NeedleItems(needle).Ok? && Flatten(haystack).Raised? ==> r == Raised(Flatten(haystack).error)
    ensures NeedleItems(needle).Ok? && Flatten(haystack) == Ok([]) ==>
      r.Ok? && |r.value| == |NeedleItems(needle).value| && forall k :: 0 <= k < |r.value| ==> r.value[k] == []
    ensures NeedleItems(needle).Ok? && Flatten(haystack).Ok? && Flatten(haystack).value != [] ==>
      r.Ok? && |r.value| == |NeedleItems(needle).value| && forall k :: 0 <= k < |r.value| ==>
        IsPairsEntry(r.value[k], StrOf(NeedleItems(needle).value[k], render),
                     Texts(Flatten(haystack).value, render), similarity, topN)
  {
    var needles := NeedleItems(needle);
    if needles.Raised? {
      return Raised(needles.error);
    }
    var hay := Flatten(haystack);
    if hay.Raised? {
      return Raised(hay.error);
    }
    if hay.value == [] {
      return Ok(seq(|needles.value|, _ => []));
    }
    var results := Entries(Texts(needles.value, render), Texts(hay.value, render), similarity, topN);
    r := Ok(results);
  }

  /** A needle range with no cells gives no entries. */
  lemma EmptyNeedleRange()
    ensures NeedleItems(GridValue([[]])) == Ok([])
  {
    GridFlatten([[]]);
    assert !GridValue([[]]).VStr?;
    assert NeedleItems(GridValue([[]])) == Flatten(GridValue([[]]));
    assert PresentInRow([]) == [];
    assert Present([[]]) == PresentInRow([]) + Present([]);
    assert Present([[]]) == [];
  }

  /** With a non-negative `top_n` every entry of a non-blank needle holds
      min(top_n, number of haystack items) pairs. */
  lemma EntryLength(entry: seq<Scored>, needle: string, hay: seq<string>, similarity: (string, string) -> int, topN: int)
    requires topN >= 0 && PyStrip(needle) != ""
    requires IsPairsEntry(entry, needle, hay, similarity, topN)
    ensures |entry| == if topN < |hay| then topN else |hay|
  {
  }
}
