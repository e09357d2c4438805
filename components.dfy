/**
 * src/component.rs: `HalfAdder::build` appends an xor gate and an and gate,
 * both over the caller's input ids, and returns their two output ids.
 */
module Components {
  import opened Signals
  import opened Gates
  import opened Circuits

  /** The two gates `build` appends when the counter stands at `n`. */
  function HalfAdderGates(ids: seq<nat>, n: nat): seq<LogicGate> {
    [New(Xor, ids, [n]), New(And, ids, [n + 1])]
  }

  /**
   * `HalfAdder::build`: two fresh consecutive ids, the first the counter's
   * old value; exactly two gates and two unknown signals are appended.
   */
  method BuildHalfAdder(ids: seq<nat>, circuit: Circuit) returns (output: seq<nat>)
    requires circuit.Valid()
    modifies circuit
    ensures circuit.Valid()
    ensures output == [old(circuit.nextValidId), old(circuit.nextValidId) + 1]
    ensures circuit.nextValidId == old(circuit.nextValidId) + 2
    ensures circuit.circuitGraph == old(circuit.circuitGraph) + HalfAdderGates(ids, output[0])
    ensures circuit.signalMap[..] == old(circuit.signalMap[..]) + [Default(), Default()]
    ensures circuit.input == old(circuit.input)
  {
    var out := new nat[2](_ => 0);
    out[0] := circuit.AddGate(Xor, ids);
    out[1] := circuit.AddGate(And, ids);
    output := out[..];
  }

  /**
   * With known values a, b at the two input ids (neither of them the xor
   * gate's own output slot), the sum slot holds a xor b and the carry slot
   * a and b.
   */
  lemma HalfAdderOutputs(ids: seq<nat>, n: nat, s: seq<Signal>)
    requires |ids| >= 2 && ids[0] < |s| && ids[1] < |s| && n + 1 < |s|
    requires ids[0] != n && ids[1] != n
    requires Known(s[ids[0]]) && Known(s[ids[1]])
    ensures RunsClean(HalfAdderGates(ids, n), s)
    ensures var r := RunGates(HalfAdderGates(ids, n), s);
      var a, b := GetUnchecked(s[ids[0]]), GetUnchecked(s[ids[1]]);
      && Known(r[n]) && GetUnchecked(r[n]) == (a != b)
      && Known(r[n + 1]) && GetUnchecked(r[n + 1]) == (a && b)
  {
    var s1, s2 := HalfAdderSteps(ids, n, s);
    RunTwo(HalfAdderGates(ids, n), s, s1, s2);
  }

  /** Two gates, the second ready on the store the first left, run cleanly to the last store. */
  lemma RunTwo(gs: seq<LogicGate>, s: seq<Signal>, s1: seq<Signal>, s2: seq<Signal>)
    requires |gs| == 2
    requires Ready(gs[0], s) && s1 == Apply(gs[0], s)
    requires Ready(gs[1], s1) && s2 == Apply(gs[1], s1)
    ensures RunsClean(gs, s) && RunGates(gs, s) == s2
  {
    Step(gs[1], [], s1);
    assert [gs[1]] == gs[1..];
    Step(gs[0], gs[1..], s);
    assert [gs[0]] + gs[1..] == gs;
  }

  /** The two intermediate stores of the half adder, one gate at a time. */
  lemma HalfAdderSteps(ids: seq<nat>, n: nat, s: seq<Signal>) returns (s1: seq<Signal>, s2: seq<Signal>)
    requires |ids| >= 2 && ids[0] < |s| && ids[1] < |s| && n + 1 < |s|
    requires ids[0] != n && ids[1] != n
    requires Known(s[ids[0]]) && Known(s[ids[1]])
    ensures var gs := HalfAdderGates(ids, n);
      var a, b := GetUnchecked(s[ids[0]]), GetUnchecked(s[ids[1]]);
      && Ready(gs[0], s) && s1 == Apply(gs[0], s)
      && Ready(gs[1], s1) && s2 == Apply(gs[1], s1)
      && Known(s2[n]) && GetUnchecked(s2[n]) == (a != b)
      && Known(s2[n + 1]) && GetUnchecked(s2[n + 1]) == (a && b)
  {
    var gs := HalfAdderGates(ids, n);
    assert Ready(gs[0], s);
    s1 := Apply(gs[0], s);
    assert s1[ids[0]] == s[ids[0]] && s1[ids[1]] == s[ids[1]];
    assert Ready(gs[1], s1);
    s2 := Apply(gs[1], s1);
  }
}
