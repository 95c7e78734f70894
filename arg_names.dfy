/** The positional argument names `arg1`, `arg2`, ... shared by the argument
    unmarshallers and the generated `result = name(arg1, ...)` lines. */
module ArgNames {
  import opened Strings

  /** The name of the 0-based positional slot `i`: `arg{i + 1}`. */
  function ArgName(i: nat): (r: string)
    ensures |r| >= 4 && r[..3] == "arg"
    ensures ',' !in r
  {
    "arg" + NatToString(i + 1)
  }

  /** After `arg` come only decimal digits. */
  lemma ArgNameDigits(i: nat)
    ensures forall k :: 3 <= k < |ArgName(i)| ==> '0' <= ArgName(i)[k] <= '9'
  {
    var d := NatToString(i + 1);
    assert forall k :: 3 <= k < |ArgName(i)| ==> ArgName(i)[k] == d[k - 3];
  }

  /** Distinct slots get distinct names. */
  lemma ArgNameInjective(i: nat, j: nat)
    requires ArgName(i) == ArgName(j)
    ensures i == j
  {
    assert ArgName(i)[3..] == NatToString(i + 1);
    assert ArgName(j)[3..] == NatToString(j + 1);
    NatToStringInjective(i + 1, j + 1);
  }

  /** The names `arg1, ..., arg{n}` as a list. */
  function ArgNameSeq(n: nat): (r: seq<string>)
    ensures |r| == n && forall i :: 0 <= i < n ==> r[i] == ArgName(i)
  {
    seq(n, i requires 0 <= i < n => ArgName(i))
  }

  /** `Array.from({ length: n }, (_, i) => `arg${i + 1}`).join(', ')`. */
  function ArgList(n: nat): (r: string)
    ensures r == Join(ArgNameSeq(n), ", ")
    ensures n == 0 <==> r == ""
  {
    if n == 0 then ""
    else if n == 1 then ArgName(0)
    else
      var r := ArgList(n - 1) + ", " + ArgName(n - 1);
      assert ArgNameSeq(n) == ArgNameSeq(n - 1) + [ArgName(n - 1)];
      JoinSnoc(ArgNameSeq(n - 1), ArgName(n - 1), ", ");
      r
  }

  /** The list has one comma fewer than it has names. */
  lemma {:induction false} ArgListCommas(n: nat)
    requires n >= 1
    ensures CountChar(ArgList(n), ',') == n - 1
  {
    if n == 1 {
      CountCharAbsent(ArgName(0), ',');
    } else {
      ArgListCommas(n - 1);
      CountCharConcat(ArgList(n - 1), ", ", ',');
      CountCharConcat(ArgList(n - 1) + ", ", ArgName(n - 1), ',');
      CountCharAbsent(ArgName(n - 1), ',');
    }
  }

  lemma {:induction false} CountCharAbsent(s: string, c: char)
    requires c !in s
    ensures CountChar(s, c) == 0
  {
    if s != [] {
      CountCharAbsent(s[1..], c);
    }
  }

  /** The names of the first `n` slots, `{arg1, ..., arg{n}}`. */
  function ArgNameSet(n: nat): (r: set<string>)
    ensures forall i :: 0 <= i < n ==> ArgName(i) in r
  {
    if n == 0 then {} else ArgNameSet(n - 1) + {ArgName(n - 1)}
  }

  /** Slot `n`'s name is none of the earlier slots' names. */
  lemma ArgNamesBelowDiffer(n: nat)
    ensures forall i :: 0 <= i < n ==> ArgName(i) != ArgName(n)
  {
    forall i | 0 <= i < n ensures ArgName(i) != ArgName(n) {
      if ArgName(i) == ArgName(n) {
        ArgNameInjective(i, n);
      }
    }
  }

  /** The globals `arg1 := values[0], ..., arg{n} := values[n - 1]`, bound in order. */
  function Bind<T>(values: seq<T>): map<string, T> {
    if values == [] then map[]
    else Bind(values[..|values| - 1])[ArgName(|values| - 1) := values[|values| - 1]]
  }

  /** Exactly `arg1 .. arg{|values|}` are bound. */
  lemma {:induction false} BindKeys<T>(values: seq<T>)
    ensures Bind(values).Keys == ArgNameSet(|values|)
  {
    if values != [] {
      BindKeys(values[..|values| - 1]);
    }
  }

  /** `arg{i + 1}` holds `values[i]`: no later binding overwrites it. */
  lemma {:induction false} BindLookup<T>(values: seq<T>, i: nat)
    requires i < |values|
    ensures ArgName(i) in Bind(values) && Bind(values)[ArgName(i)] == values[i]
  {
    var n := |values| - 1;
    var front := values[..n];
    assert Bind(values) == Bind(front)[ArgName(n) := values[n]];
    if i < n {
      assert front[i] == values[i];
      BindLookup(front, i);
      if ArgName(i) == ArgName(n) {
        ArgNameInjective(i, n);
      }
    }
  }
}
