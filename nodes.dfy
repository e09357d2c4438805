/**
 * src/node.rs: a node of a circuit is a fixed-arity gate, a component
 * still being built, or a named custom component. Every operation is
 * implemented for gates only; the other variants reach `todo!()` or
 * `unreachable!()`, so each operation requires a gate node.
 */
module Nodes {
  import opened Signals
  import ArityGates

  datatype Node =
    | Gate(gate: ArityGates.LogicGate)
    | InBuild
    | Custom(name: string, input: seq<nat>, output: nat)

  /**
   * `get_type`: the gate's type, whose count is its number of inputs;
   * together with the node's input and output ids it rebuilds the gate.
   */
  function GetType(n: Node): (t: ArityGates.GateType)
    requires n.Gate?
    ensures t.size == |GetInput(n)|
    ensures ArityGates.Constructible(t) && ArityGates.KeptInputs(t) == t.size
    ensures ArityGates.New(t, GetInput(n), GetOutput(n)) == n.gate
  {
    ArityGates.NewFromAccessors(n.gate);
    ArityGates.GetType(n.gate)
  }

  /** `get_input`: the gate's input ids. */
  function GetInput(n: Node): (ids: seq<nat>)
    requires n.Gate?
    ensures 1 <= |ids| <= 3
  {
    ArityGates.GetInput(n.gate)
  }

  /** `get_output`: a one-element list holding the gate's output id. */
  function GetOutput(n: Node): (ids: seq<nat>)
    requires n.Gate?
    ensures |ids| == 1 && ids[0] == ArityGates.GetOutput(n.gate)
  {
    [ArityGates.GetOutput(n.gate)]
  }

  /**
   * `execute`: the signal the gate produces from `signals`. The gate
   * method it calls is not in the fixed-arity revision; it is taken to be
   * the value `LogicGate::execute` writes.
   */
  function Execute(n: Node, signals: seq<Signal>): (r: Signal)
    requires n.Gate? && ArityGates.Ready(n.gate, signals)
    ensures Known(r)
    ensures r == ArityGates.Apply(n.gate, signals)[GetOutput(n)[0]]
  {
    ArityGates.Written(n.gate, signals)
  }

  /**
   * `execute_mut`: the gate executed in place; its output slot receives
   * what `execute` returns and no other slot changes.
   */
  method ExecuteMut(n: Node, signals: array<Signal>)
    requires n.Gate? && ArityGates.Ready(n.gate, signals[..])
    modifies signals
    ensures signals[..] == old(signals[..])[GetOutput(n)[0] := Execute(n, old(signals[..]))]
  {
    ArityGates.Execute(n.gate, signals);
  }
}
