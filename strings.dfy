/** String helpers shared by the JavaScript and Python parts of the model:
    whitespace classes of both languages, trimming, single-character split
    and join, first-occurrence replace, ASCII case mapping and decimal
    rendering of integers. */
module Strings {

  /** A character JavaScript's `trim()` and the regular-expression class `\s`
      treat as white space (WhiteSpace and LineTerminator of ECMA-262). */
  predicate IsJsSpace(c: char) {
    c == ' ' || c == '\t' || c == '\n' || c == '\r' || c == '\U{000B}' || c == '\U{000C}'
    || c == '\U{00A0}' || c == '\U{FEFF}' || c == '\U{1680}'
    || ('\U{2000}' <= c <= '\U{200A}')
    || c == '\U{2028}' || c == '\U{2029}' || c == '\U{202F}' || c == '\U{205F}' || c == '\U{3000}'
  }

  /** A character Python's `str.strip()` and `str.isspace()` treat as white space. */
  predicate IsPySpace(c: char) {
    c == ' ' || c == '\t' || c == '\n' || c == '\r' || c == '\U{000B}' || c == '\U{000C}'
    || ('\U{001C}' <= c <= '\U{001F}') || c == '\U{0085}'
    || c == '\U{00A0}' || c == '\U{1680}'
    || ('\U{2000}' <= c <= '\U{200A}')
    || c == '\U{2028}' || c == '\U{2029}' || c == '\U{202F}' || c == '\U{205F}' || c == '\U{3000}'
  }

  /** True when every character of `s` satisfies `space` (so `s` is blank). */
  predicate AllSpace(s: string, space: char -> bool) {
    forall i :: 0 <= i < |s| ==> space(s[i])
  }

  /** The number of leading characters of `s` that satisfy `space`. */
  function LeadingCount(s: string, space: char -> bool): (n: nat)
    ensures n <= |s| && (n == |s| || !space(s[n]))
    ensures forall i :: 0 <= i < n ==> space(s[i])
  {
    if s == [] || !space(s[0]) then 0
    else
      var n := 1 + LeadingCount(s[1..], space);
      assert forall i :: 1 <= i < n ==> s[i] == s[1..][i - 1];
      n
  }

  function DropLeading(s: string, space: char -> bool): (r: string)
    ensures |r| <= |s| && r == s[|s| - |r|..]
    ensures r == [] || !space(r[0])
    ensures AllSpace(s[..|s| - |r|], space)
  {
    var n := LeadingCount(s, space);
    assert forall i :: 0 <= i < n ==> s[..n][i] == s[i];
    s[n..]
  }

  /** The number of trailing characters of `s` that satisfy `space`. */
  function TrailingCount(s: string, space: char -> bool): (n: nat)
    ensures n <= |s| && (n == |s| || !space(s[|s| - 1 - n]))
    ensures forall i :: |s| - n <= i < |s| ==> space(s[i])
  {
    if s == [] || !space(s[|s| - 1]) then 0
    else
      var n := 1 + TrailingCount(s[..|s| - 1], space);
      assert forall i :: |s| - n <= i < |s| - 1 ==> s[i] == s[..|s| - 1][i];
      n
  }

  function DropTrailing(s: string, space: char -> bool): (r: string)
    ensures |r| <= |s| && r == s[..|r|]
    ensures r == [] || !space(r[|r| - 1])
    ensures AllSpace(s[|r|..], space)
  {
    var n := TrailingCount(s, space);
    var tail := s[|s| - n..];
    forall i | 0 <= i < |tail| ensures space(tail[i]) {
      assert tail[i] == s[|s| - n + i];
    }
    s[..|s| - n]
  }

  /** `s` with leading and trailing white space of the given class removed. */
  function Strip(s: string, space: char -> bool): (r: string)
    ensures r == [] || (!space(r[0]) && !space(r[|r| - 1]))
  {
    DropTrailing(DropLeading(s, space), space)
  }

  /** What `Strip` removes is white space at both ends, and it keeps a
      contiguous slice. */
  lemma StripSlice(s: string, space: char -> bool)
    ensures exists i, j :: (0 <= i <= j <= |s| && Strip(s, space) == s[i..j]
                           && AllSpace(s[..i], space) && AllSpace(s[j..], space))
  {
    var a := DropLeading(s, space);
    var b := DropTrailing(a, space);
    var i := |s| - |a|;
    assert b == s[i..i + |b|];
    assert s[i + |b|..] == a[|b|..];
  }

  /** JavaScript `String.prototype.trim`. */
  function Trim(s: string): string { Strip(s, IsJsSpace) }

  /** Python `str.strip()` with no argument. */
  function PyStrip(s: string): string { Strip(s, IsPySpace) }

  lemma {:induction false} StripEmptyIffBlank(s: string, space: char -> bool)
    ensures Strip(s, space) == [] <==> AllSpace(s, space)
  {
    var a := DropLeading(s, space);
    if a == [] {
      assert s[..|s|] == s;
    } else {
      assert !space(a[0]) && a[0] == s[|s| - |a|];
      assert DropTrailing(a, space) != [];
    }
  }

  /** Prefix and suffix tests (`startsWith`, `endsWith`). */
  predicate StartsWith(s: string, p: string) { |p| <= |s| && s[..|p|] == p }
  predicate EndsWith(s: string, p: string) { |p| <= |s| && s[|s| - |p|..] == p }

  /** The number of occurrences of character `c` in `s`. */
  function CountChar(s: string, c: char): (n: nat)
    ensures n <= |s|
  {
    if s == [] then 0 else (if s[0] == c then 1 else 0) + CountChar(s[1..], c)
  }

  lemma {:induction false} CountCharConcat(a: string, b: string, c: char)
    ensures CountChar(a + b, c) == CountChar(a, c) + CountChar(b, c)
  {
    if a != [] {
      assert (a + b)[0] == a[0] && (a + b)[1..] == a[1..] + b;
      CountCharConcat(a[1..], b, c);
    } else {
      assert a + b == b;
    }
  }

  /** JavaScript `s.split(c)` and Python `s.split(c)` for a one-character separator:
      the pieces between occurrences of `c`. */
  function Split(s: string, c: char): (parts: seq<string>)
    ensures |parts| == CountChar(s, c) + 1
    ensures forall k :: 0 <= k < |parts| ==> c !in parts[k]
  {
    if s == [] then [""]
    else
      var rest := Split(s[1..], c);
      if s[0] == c then [""] + rest
      else
        var parts := [[s[0]] + rest[0]] + rest[1..];
        assert c !in parts[0];
        assert forall k :: 1 <= k < |parts| ==> parts[k] == rest[k];
        parts
  }

  /** `parts.join(sep)`. */
  function Join(parts: seq<string>, sep: string): string {
    if parts == [] then ""
    else if |parts| == 1 then parts[0]
    else parts[0] + sep + Join(parts[1..], sep)
  }

  /** Joining one more part adds the separator and that part. */
  lemma {:induction false} JoinSnoc(parts: seq<string>, x: string, sep: string)
    requires parts != []
    ensures Join(parts + [x], sep) == Join(parts, sep) + sep + x
  {
    if |parts| == 1 {
      assert (parts + [x])[1..] == [x];
    } else {
      assert (parts + [x])[1..] == parts[1..] + [x];
      JoinSnoc(parts[1..], x, sep);
    }
  }

  /** Splitting and re-joining with the same separator gives back the text. */
  lemma {:induction false} JoinSplit(s: string, c: char)
    ensures Join(Split(s, c), [c]) == s
  {
    if s != [] {
      JoinSplit(s[1..], c);
      var rest := Split(s[1..], c);
      if s[0] == c {
        assert s == [c] + s[1..];
      } else if |rest| == 1 {
        assert s == [s[0]] + s[1..];
      } else {
        var parts := Split(s, c);
        assert parts[1..] == rest[1..];
        assert s == [s[0]] + s[1..];
      }
    }
  }

  /** A piece without `c` followed by `c` splits off as the first piece. */
  lemma {:induction false} SplitConcat(a: string, b: string, c: char)
    requires c !in a
    ensures Split(a + [c] + b, c) == [a] + Split(b, c)
  {
    var s := a + [c] + b;
    if a == [] {
      assert s[1..] == b;
    } else {
      assert s[0] == a[0] && s[1..] == a[1..] + [c] + b;
      SplitConcat(a[1..], b, c);
      assert [a[0]] + a[1..] == a;
    }
  }

  /** Joining pieces free of `c` with `c` and splitting again gives the pieces. */
  lemma {:induction false} SplitJoin(parts: seq<string>, c: char)
    requires parts != [] && forall k :: 0 <= k < |parts| ==> c !in parts[k]
    ensures Split(Join(parts, [c]), c) == parts
  {
    if |parts| == 1 {
      SplitHead(parts[0], c);
    } else {
      SplitJoin(parts[1..], c);
      SplitConcat(parts[0], Join(parts[1..], [c]), c);
      assert [parts[0]] + parts[1..] == parts;
    }
  }

  /** The first piece of `Split(s, c)` is the text before the first `c`. */
  lemma {:induction false} SplitHead(s: string, c: char)
    ensures c in s ==> exists i :: (0 <= i < |s| && s[i] == c && c !in s[..i] && Split(s, c)[0] == s[..i]
                                    && Join(Split(s, c)[1..], [c]) == s[i + 1..])
    ensures c !in s ==> Split(s, c) == [s]
  {
    if s != [] {
      SplitHead(s[1..], c);
      if s[0] == c {
        JoinSplit(s[1..], c);
        assert s[..0] == [];
      } else if c in s {
        assert c in s[1..];
        var i :| 0 <= i < |s[1..]| && s[1..][i] == c && c !in s[1..][..i] && Split(s[1..], c)[0] == s[1..][..i]
          && Join(Split(s[1..], c)[1..], [c]) == s[1..][i + 1..];
        assert s[..i + 1] == [s[0]] + s[1..][..i];
        assert s[i + 2..] == s[1..][i + 1..];
        assert Split(s, c)[1..] == Split(s[1..], c)[1..];
      } else {
        assert c !in s[1..];
        assert s == [s[0]] + s[1..];
      }
    }
  }

  /** `p` occurs in `s` starting at index `i`. */
  predicate OccursAt(s: string, p: string, i: int) {
    0 <= i <= |s| - |p| && s[i..i + |p|] == p
  }

  /** `s.includes(p)` / Python `p in s`. */
  predicate Contains(s: string, p: string) {
    exists i :: 0 <= i <= |s| - |p| && OccursAt(s, p, i)
  }

  /** The index of the first occurrence of `p` in `s` at or after `from`, if any. */
  function IndexOfFrom(s: string, p: string, from: nat): (r: int)
    requires from <= |s|
    ensures r == -1 || 0 <= r <= |s| - |p|
    ensures r >= 0 ==> from <= r && OccursAt(s, p, r)
    ensures r >= 0 ==> forall k :: from <= k < r ==> !OccursAt(s, p, k)
    ensures r < 0 ==> forall k :: from <= k ==> !OccursAt(s, p, k)
    decreases |s| - from
  {
    if from + |p| > |s| then -1
    else if s[from..from + |p|] == p then from
    else if from == |s| then -1
    else IndexOfFrom(s, p, from + 1)
  }

  /** JavaScript `s.replace(p, rep)` with a string pattern: only the first
      occurrence of `p` is replaced; without one `s` is returned unchanged. */
  function ReplaceFirst(s: string, p: string, rep: string): (r: string)
    ensures StartsWith(s, p) ==> r == rep + s[|p|..]
    ensures !Contains(s, p) ==> r == s
  {
    var i := IndexOfFrom(s, p, 0);
    if i < 0 then s else s[..i] + rep + s[i + |p|..]
  }

  /** Every occurrence of character `c` replaced by `d` (a global regex replace
      such as `.replace(/\//g, '_')`). */
  function ReplaceChar(s: string, c: char, d: char): (r: string)
    ensures |r| == |s|
    ensures forall k :: 0 <= k < |s| ==> r[k] == (if s[k] == c then d else s[k])
  {
    if s == [] then [] else [if s[0] == c then d else s[0]] + ReplaceChar(s[1..], c, d)
  }

  /** Every occurrence of character `c` removed (`.replace(/=/g, '')`). */
  function RemoveChar(s: string, c: char): (r: string)
    ensures c !in r && |r| == |s| - CountChar(s, c)
  {
    if s == [] then [] else (if s[0] == c then [] else [s[0]]) + RemoveChar(s[1..], c)
  }

  /** ASCII case mapping. The names it is applied to match
      `[a-zA-Z_][a-zA-Z0-9_]*`, so no other letters occur; other characters
      are left alone. */
  function LowerChar(c: char): char { if 'A' <= c <= 'Z' then (c as int + 32) as char else c }
  function UpperChar(c: char): char { if 'a' <= c <= 'z' then (c as int - 32) as char else c }

  function Lower(s: string): (r: string)
    ensures |r| == |s| && forall k :: 0 <= k < |s| ==> r[k] == LowerChar(s[k])
  {
    if s == [] then [] else [LowerChar(s[0])] + Lower(s[1..])
  }

  /** Lower-casing twice changes nothing more. */
  lemma LowerIdempotent(s: string)
    ensures Lower(Lower(s)) == Lower(s)
  {
    assert forall k :: 0 <= k < |s| ==> LowerChar(LowerChar(s[k])) == LowerChar(s[k]);
  }

  /** Lower-casing forgets an earlier upper-casing. */
  lemma LowerUpper(s: string)
    ensures Lower(Upper(s)) == Lower(s)
  {
    assert forall k :: 0 <= k < |s| ==> LowerChar(UpperChar(s[k])) == LowerChar(s[k]);
  }

  function Upper(s: string): (r: string)
    ensures |r| == |s| && forall k :: 0 <= k < |s| ==> r[k] == UpperChar(s[k])
  {
    if s == [] then [] else [UpperChar(s[0])] + Upper(s[1..])
  }

  /** The first `n` characters (JavaScript `s.slice(0, n)` for `n >= 0`). */
  function Take(s: string, n: nat): (r: string)
    ensures |r| == if |s| < n then |s| else n
    ensures r == s[..|r|]
  {
    if |s| <= n then s else s[..n]
  }

  function DigitChar(d: nat): (c: char)
    requires d < 10
    ensures '0' <= c <= '9'
  {
    ('0' as int + d) as char
  }

  /** Decimal rendering of a natural number (Python `str(n)`, JavaScript `${n}`). */
  function NatToString(n: nat): (r: string)
    ensures |r| >= 1
    ensures forall k :: 0 <= k < |r| ==> '0' <= r[k] <= '9'
    ensures n >= 10 ==> r[0] != '0'
    ensures r[|r| - 1] == DigitChar(n % 10)
    decreases n
  {
    if n < 10 then [DigitChar(n)] else NatToString(n / 10) + [DigitChar(n % 10)]
  }

  /** Distinct numbers have distinct decimal renderings. */
  lemma {:induction false} NatToStringInjective(m: nat, n: nat)
    requires NatToString(m) == NatToString(n)
    ensures m == n
    decreases m
  {
    var s := NatToString(m);
    if m < 10 && n < 10 {
      assert s[0] == DigitChar(m) && s[0] == DigitChar(n);
    } else if m >= 10 && n >= 10 {
      assert NatToString(m / 10) == s[..|s| - 1] == NatToString(n / 10);
      NatToStringInjective(m / 10, n / 10);
      assert DigitChar(m % 10) == DigitChar(n % 10);
    }
  }

  /** Decimal rendering of an integer, with a leading '-' for negatives. */
  function IntToString(i: int): (r: string)
    ensures |r| >= 1
  {
    if i < 0 then "-" + NatToString(-i) else NatToString(i)
  }

  /** A rendering starts with '-' exactly for a negative number. */
  lemma IntToStringSign(i: int)
    ensures IntToString(i)[0] == '-' <==> i < 0
  {
    if i >= 0 {
      assert '0' <= NatToString(i)[0] <= '9';
    }
  }

  /** Distinct integers have distinct renderings. */
  lemma IntToStringInjective(i: int, j: int)
    requires IntToString(i) == IntToString(j)
    ensures i == j
  {
    IntToStringSign(i);
    IntToStringSign(j);
    if i < 0 {
      var s := IntToString(i);
      assert s[1..] == NatToString(-i) && s[1..] == NatToString(-j);
      NatToStringInjective(-i, -j);
    } else {
      NatToStringInjective(i, j);
    }
  }

  /** Python's `format(n, ",")` for a natural number: decimal digits grouped by
      three from the right with ',' between groups. */
  function GroupThousands(n: nat): (r: string)
    ensures |r| >= 1
    decreases n
  {
    if n < 1000 then NatToString(n)
    else GroupThousands(n / 1000) + "," + Pad3(n % 1000)
  }

  /** The three digits of `d` with leading zeros. */
  function Pad3(d: nat): (r: string)
    requires d < 1000
    ensures |r| == 3 && ',' !in r
  {
    [DigitChar(d / 100), DigitChar((d / 10) % 10), DigitChar(d % 10)]
  }

  /** Python's `format(i, ",")` for an integer. */
  function FormatThousands(i: int): (r: string)
    ensures |r| >= 1
  {
    if i < 0 then "-" + GroupThousands(-i) else GroupThousands(i)
  }

  /** The digits of a rendering with its separators removed. */
  lemma {:induction false} GroupThousandsDigits(n: nat)
    ensures RemoveChar(GroupThousands(n), ',') == NatToString(n)
    decreases n
  {
    if n >= 1000 {
      var g, t := GroupThousands(n / 1000), Pad3(n % 1000);
      GroupThousandsDigits(n / 1000);
      assert GroupThousands(n) == g + ("," + t);
      RemoveCharConcat(g, "," + t, ',');
      RemoveLeadingComma(t);
      NatToStringShift(n);
    } else {
      RemoveCharAbsent(NatToString(n), ',');
    }
  }

  lemma RemoveLeadingComma(t: string)
    requires ',' !in t
    ensures RemoveChar("," + t, ',') == t
  {
    RemoveCharConcat(",", t, ',');
    RemoveCharAbsent(t, ',');
    assert RemoveChar(",", ',') == [];
  }

  lemma {:induction false} RemoveCharAbsent(s: string, c: char)
    requires c !in s
    ensures RemoveChar(s, c) == s
  {
    if s != [] {
      assert c !in s[1..];
      RemoveCharAbsent(s[1..], c);
      assert s == [s[0]] + s[1..];
    }
  }

  lemma {:induction false} RemoveCharConcat(a: string, b: string, c: char)
    ensures RemoveChar(a + b, c) == RemoveChar(a, c) + RemoveChar(b, c)
  {
    if a != [] {
      assert (a + b)[0] == a[0] && (a + b)[1..] == a[1..] + b;
      RemoveCharConcat(a[1..], b, c);
      var h := if a[0] == c then [] else [a[0]];
      calc {
        RemoveChar(a + b, c);
        h + RemoveChar(a[1..] + b, c);
        h + (RemoveChar(a[1..], c) + RemoveChar(b, c));
        (h + RemoveChar(a[1..], c)) + RemoveChar(b, c);
      }
    } else {
      assert a + b == b;
    }
  }

  /** The decimal rendering of `n` ends with the three digits of `n % 1000`. */
  lemma NatToStringShift(n: nat)
    requires n >= 1000
    ensures NatToString(n) == NatToString(n / 1000) + Pad3(n % 1000)
  {
    var q, d := n / 1000, n % 1000;
    var n1 := q * 100 + d / 10;
    var n2 := q * 10 + d / 100;
    assert n / 10 == n1 && n % 10 == d % 10;
    assert n1 / 10 == n2 && n1 % 10 == (d / 10) % 10;
    assert n2 / 10 == q && n2 % 10 == d / 100;
    var a, b, c := [DigitChar(d / 100)], [DigitChar((d / 10) % 10)], [DigitChar(d % 10)];
    assert NatToString(n) == NatToString(n1) + c;
    assert NatToString(n1) == NatToString(n2) + b;
    assert NatToString(n2) == NatToString(q) + a;
    assert Pad3(d) == a + b + c;
    assert NatToString(q) + a + b + c == NatToString(q) + (a + b + c);
  }

  /** `arr.filter(keep)`: the pieces `keep` accepts, in order. */
  function Keep(pieces: seq<string>, keep: string -> bool): (r: seq<string>)
    ensures |r| <= |pieces|
    ensures forall k :: 0 <= k < |r| ==> keep(r[k]) && r[k] in pieces
    ensures (forall k :: 0 <= k < |pieces| ==> keep(pieces[k])) ==> r == pieces
  {
    if pieces == [] then []
    else
      var rest := Keep(pieces[1..], keep);
      assert forall k :: 0 <= k < |rest| ==> rest[k] in pieces by {
        forall k | 0 <= k < |rest| ensures rest[k] in pieces {
          var j :| 0 <= j < |pieces[1..]| && pieces[1..][j] == rest[k];
          assert pieces[j + 1] == rest[k];
        }
      }
      if keep(pieces[0]) then
        assert [pieces[0]] + pieces[1..] == pieces;
        [pieces[0]] + rest
      else rest
  }

  /** A piece `x.trim()` leaves non-empty. */
  predicate Filled(s: string) { Trim(s) != "" }

  /** `arr.filter(x => x.trim())`: the pieces that are not blank, in order. */
  function NonBlank(pieces: seq<string>): (r: seq<string>)
    ensures |r| <= |pieces|
    ensures forall k :: 0 <= k < |r| ==> Trim(r[k]) != "" && r[k] in pieces
    ensures (forall k :: 0 <= k < |pieces| ==> Trim(pieces[k]) != "") ==> r == pieces
  {
    var r := Keep(pieces, Filled);
    assert forall k :: 0 <= k < |r| ==> Filled(r[k]);
    r
  }

  /** The characters JavaScript's `.` does not match. */
  predicate IsLineTerminator(c: char) {
    c == '\n' || c == '\r' || c == '\U{2028}' || c == '\U{2029}'
  }

  /** `[a-zA-Z_]` and `[a-zA-Z0-9_]`. */
  predicate IsIdentStart(c: char) { ('a' <= c <= 'z') || ('A' <= c <= 'Z') || c == '_' }
  predicate IsIdentChar(c: char) { IsIdentStart(c) || ('0' <= c <= '9') }

  /** `[a-zA-Z_][a-zA-Z0-9_]*`. */
  predicate IsIdentifier(s: string) {
    |s| >= 1 && IsIdentStart(s[0]) && forall k :: 1 <= k < |s| ==> IsIdentChar(s[k])
  }
}
