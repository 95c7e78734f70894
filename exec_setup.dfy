/** The argument unmarshaller of src/functions/exec/setup.py, which the list
    branch of the Pyodide worker repeats: every positional slot passed from
    the spreadsheet becomes a Python global `arg{i + 1}`. */
module ExecSetup {
  import opened Wrappers
  import opened PyValues
  import opened ArgNames

  /** One positional argument as the host passes it: `null` for a skipped
      argument, otherwise a range given as its rows. */
  datatype Slot = NullSlot | Range(rows: seq<seq<PyValue>>)

  /** What `arg{i + 1}` is bound to for a slot: None for a skipped argument,
      the single cell of a 1x1 range, and the rows as a nested list otherwise. */
  function Unmarshal(s: Slot): (v: PyValue)
    ensures s.NullSlot? ==> v == VNone
    ensures s.Range? && |s.rows| == 1 && |s.rows[0]| == 1 ==> v == s.rows[0][0]
  {
    match s
    case NullSlot => VNone
    case Range(rows) => if |rows| == 1 && |rows[0]| == 1 then rows[0][0] else GridValue(rows)
  }

  /** Every other range (1xN, Nx1, no rows, empty rows) keeps its shape. */
  lemma UnmarshalKeepsShape(s: Slot)
    requires s.Range? && !(|s.rows| == 1 && |s.rows[0]| == 1)
    ensures Unmarshal(s).VList? && |Unmarshal(s).items| == |s.rows|
    ensures forall k :: 0 <= k < |s.rows| ==> Unmarshal(s).items[k] == VList(s.rows[k])
  {
  }

  /** An empty cell arrives as `[[null]]` and a skipped argument as `null`:
      both bind None. An unfilled optional LAMBDA argument arrives as
      `[[false]]` and binds False. */
  lemma HostConventions()
    ensures Unmarshal(Range([[VNone]])) == Unmarshal(NullSlot) == VNone
    ensures Unmarshal(Range([[VBool(false)]])) == VBool(false)
  {
  }

  /** The value each slot binds, in slot order. */
  function UnmarshalAll(slots: seq<Slot>): (values: seq<PyValue>)
    ensures |values| == |slots|
    ensures forall i :: 0 <= i < |slots| ==> values[i] == Unmarshal(slots[i])
  {
    seq(|slots|, i requires 0 <= i < |slots| => Unmarshal(slots[i]))
  }

  /** The globals the loop binds for `slots`. */
  function ArgBindings(slots: seq<Slot>): (m: map<string, PyValue>)
    ensures m.Keys == ArgNameSet(|slots|)
    ensures forall i :: 0 <= i < |slots| ==> m[ArgName(i)] == Unmarshal(slots[i])
  {
    var values := UnmarshalAll(slots);
    BindKeys(values);
    forall i | 0 <= i < |slots| ensures Bind(values)[ArgName(i)] == values[i] {
      BindLookup(values, i);
    }
    Bind(values)
  }

  /** No argument name collides with `test_cases`. */
  lemma ArgNameIsNotTestCases(i: nat)
    ensures ArgName(i) != "test_cases"
  {
    assert "test_cases"[..3] == "tes";
  }

  /** The Python globals dictionary. */
  class PyGlobals {
    var vars: map<string, PyValue>

    constructor ()
      ensures vars == map[]
    {
      vars := map[];
    }

    /** The `for index, value in enumerate(...)` loop: binds slot `i` to
        `arg{i + 1}`, leaving every other global as it was. */
    method BindArgs(slots: seq<Slot>)
      modifies this
      ensures vars == old(vars) + ArgBindings(slots)
    {
      ghost var values := UnmarshalAll(slots);
      var i := 0;
      while i < |slots|
        invariant 0 <= i <= |slots|
        invariant vars == old(vars) + Bind(values[..i])
      {
        assert values[..i + 1][..i] == values[..i];
        vars := vars[ArgName(i) := Unmarshal(slots[i])];
        i := i + 1;
      }
      assert values[..i] == values;
    }

    /** setup.py as a whole. `globalArgs` is the value of the global
        `global_args`, or None when that global is absent. */
    method RunSetup(globalArgs: Option<seq<Slot>>)
      modifies this
      ensures globalArgs.None? ==> vars == old(vars)["test_cases" := VNone]
      ensures globalArgs.Some? ==> vars == (old(vars) + ArgBindings(globalArgs.value))["test_cases" := VNone]
    {
      if globalArgs.Some? {
        BindArgs(globalArgs.value);
      }
      vars := vars["test_cases" := VNone];
    }
  }

  /** After setup every slot's name holds its unmarshalled value, `test_cases`
      holds None, and no other global was added. */
  lemma {:induction false} SetupBindings(before: map<string, PyValue>, slots: seq<Slot>)
    ensures var after := (before + ArgBindings(slots))["test_cases" := VNone];
      after["test_cases"] == VNone
      && (forall i :: 0 <= i < |slots| ==> after[ArgName(i)] == Unmarshal(slots[i]))
      && after.Keys == before.Keys + ArgNameSet(|slots|) + {"test_cases"}
      && (forall k :: k in before && k !in ArgNameSet(|slots|) && k != "test_cases" ==> after[k] == before[k])
  {
    forall i | 0 <= i < |slots| ensures ArgName(i) != "test_cases" {
      ArgNameIsNotTestCases(i);
    }
  }
}
