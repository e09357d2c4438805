/**
 * src/main.rs: an earlier prototype of the simulator. The circuit reserves
 * a block of signals for its inputs and outputs, keeps tables of their
 * ids, and runs wired NOT gates that propagate unknown values. Its
 * `Signal(Option<bool>)` has the same shape as the one of src/signal.rs,
 * which is reused here.
 */
module Prototype {
  import opened Wrappers
  import opened Signals

  /** `[usize; 1]`, the input array of a wired gate. */
  type Ids1 = s: seq<nat> | |s| == 1 witness [0]

  /** `Option::map(|x| !x)` on a signal: negates a known value, keeps an unknown one. */
  function Negate(s: Signal): (r: Signal)
    ensures Known(r) <==> Known(s)
    ensures Known(s) ==> GetUnchecked(r) == !GetUnchecked(s)
  {
    match s.value
    case Some(x) => Signal(Some(!x))
    case None => Signal(None)
  }

  datatype WiredGate = Not(input: Ids1, output: nat)
  {
    /** `set_output`: rewires the output; the input is untouched. */
    function SetOutput(o: nat): (g: WiredGate)
      ensures g.GetOutput() == o && g.input == input
    {
      Not(input, o)
    }

    /** `get_output`. */
    function GetOutput(): (o: nat)
      ensures o == output
    {
      output
    }

    /** `execute` does not panic on a store of `len` signals. */
    predicate Fits(len: nat) {
      input[0] < len && output < len
    }

    /** The store after `execute`: only the output slot changes. */
    function Apply(s: seq<Signal>): (r: seq<Signal>)
      requires Fits(|s|)
      ensures |r| == |s| && r[output] == Negate(s[input[0]])
      ensures forall k :: 0 <= k < |s| && k != output ==> r[k] == s[k]
    {
      s[output := Negate(s[input[0]])]
    }

    /** `WiredGate::execute`: writes `ctx[output]` in place. */
    method Execute(ctx: array<Signal>)
      requires Fits(ctx.Length)
      modifies ctx
      ensures ctx[..] == Apply(old(ctx[..]))
    {
      ctx[output] := Negate(ctx[input[0]]);
    }
  }

  /** Every gate of `gs` fits a store of `len` signals. */
  predicate Runnable(gs: seq<WiredGate>, len: nat) {
    forall j :: 0 <= j < |gs| ==> gs[j].Fits(len)
  }

  /** The store after running every gate once, in stored order. */
  function RunWired(gs: seq<WiredGate>, s: seq<Signal>): (r: seq<Signal>)
    requires Runnable(gs, |s|)
    ensures |r| == |s|
    decreases |gs|
  {
    if gs == [] then s else RunWired(gs[1..], gs[0].Apply(s))
  }

  /** The store after `signal_map[i] = input[i]` for each id `i` of `idx`, in order. */
  function CopyInputs(s: seq<Signal>, idx: seq<nat>, input: seq<Signal>): (r: seq<Signal>)
    requires forall k :: 0 <= k < |idx| ==> idx[k] < |s| && idx[k] < |input|
    ensures |r| == |s|
    decreases |idx|
  {
    if idx == [] then s
    else
      var last := idx[|idx| - 1];
      CopyInputs(s, idx[..|idx| - 1], input)[last := input[last]]
  }

  /** The ids `0 .. n-1`, the input table `new` builds. */
  function Iota(n: nat): (r: seq<nat>)
    ensures |r| == n && forall k :: 0 <= k < n ==> r[k] == k
  {
    seq(n, k requires 0 <= k < n => k)
  }

  /**
   * With the input table of `new`, copying the inputs overwrites exactly
   * the first `n` slots, each with the input of the same index.
   */
  lemma {:induction false} CopyIota(s: seq<Signal>, n: nat, input: seq<Signal>)
    requires n <= |s| && n <= |input|
    ensures CopyInputs(s, Iota(n), input) == input[..n] + s[n..]
  {
    if n > 0 {
      assert Iota(n)[..n - 1] == Iota(n - 1);
      CopyIota(s, n - 1, input);
      assert (input[..n - 1] + s[n - 1..])[n - 1 := input[n - 1]] == input[..n] + s[n..];
    }
  }

  class Circuit {
    var signalMap: array<Signal>
    var inputIndexes: seq<nat>
    var outputIndexes: seq<nat>
    var circuitGraph: seq<WiredGate>
    var nextValidId: nat

    /**
     * `Circuit::new`: 2(input + output) unknown signals; input `k` is
     * signal `k` and output `k` is signal `2 * input + k`; the counter
     * starts at 2(input + output) + 1, past the end of the store.
     */
    constructor (input: nat, output: nat)
      ensures fresh(signalMap) && signalMap.Length == 2 * (input + output)
      ensures forall k :: 0 <= k < signalMap.Length ==> signalMap[k] == Default()
      ensures inputIndexes == Iota(input)
      ensures |outputIndexes| == output && forall k :: 0 <= k < output ==> outputIndexes[k] == 2 * input + k
      ensures circuitGraph == [] && nextValidId == 2 * (input + output) + 1
    {
      var store := new Signal[(input + output) * 2](_ => Signal(None));
      var inputTable := new nat[input](_ => 0);
      var outputTable := new nat[output](_ => 0);
      var next := 0;
      for i := 0 to input
        modifies inputTable
        invariant forall k :: 0 <= k < i ==> inputTable[k] == k
      {
        inputTable[i] := i;
      }
      next := next + input * 2;
      for i := 0 to output
        modifies outputTable
        invariant forall k :: 0 <= k < i ==> outputTable[k] == k + next
      {
        outputTable[i] := i + next;
      }
      next := next + output * 2;
      next := next + 1;
      assert inputTable[..] == Iota(input);
      signalMap := store;
      inputIndexes := inputTable[..];
      outputIndexes := outputTable[..];
      circuitGraph := [];
      nextValidId := next;
    }

    /** The counter lies past the end of the store, which never grows. */
    predicate PastStore()
      reads this
    {
      nextValidId > signalMap.Length
    }

    /**
     * `add_gate`: the gate's output becomes the counter, which then
     * increments. Since the counter lies past the store, the added gate
     * can never execute: `execute` would index out of range.
     */
    method AddGate(gate: WiredGate)
      requires PastStore()
      modifies this
      ensures circuitGraph == old(circuitGraph) + [gate.SetOutput(old(nextValidId))]
      ensures nextValidId == old(nextValidId) + 1 && PastStore()
      ensures signalMap == old(signalMap) && inputIndexes == old(inputIndexes) && outputIndexes == old(outputIndexes)
      ensures !Runnable(circuitGraph, signalMap.Length)
    {
      var g := gate.SetOutput(nextValidId);
      nextValidId := nextValidId + 1;
      circuitGraph := circuitGraph + [g];
      assert !circuitGraph[|circuitGraph| - 1].Fits(signalMap.Length);
    }

    /**
     * `add_gate_to_output`: the gate's output, read as an output number, is
     * rewired to that output's signal; the counter is unchanged.
     */
    method AddGateToOutput(gate: WiredGate)
      requires gate.GetOutput() < |outputIndexes|
      modifies this
      ensures circuitGraph == old(circuitGraph) + [gate.SetOutput(old(outputIndexes)[gate.GetOutput()])]
      ensures nextValidId == old(nextValidId)
      ensures signalMap == old(signalMap) && inputIndexes == old(inputIndexes) && outputIndexes == old(outputIndexes)
    {
      var outputIndex := outputIndexes[gate.GetOutput()];
      circuitGraph := circuitGraph + [gate.SetOutput(outputIndex)];
    }

    /** `get_input`: the signal of input `index`. */
    method GetInput(index: nat) returns (s: Signal)
      requires index < |inputIndexes| && inputIndexes[index] < signalMap.Length
      ensures s == signalMap[inputIndexes[index]]
    {
      s := signalMap[inputIndexes[index]];
    }

    /** `get_output`: the signal of output `index`. */
    method GetOutput(index: nat) returns (s: Signal)
      requires index < |outputIndexes| && outputIndexes[index] < signalMap.Length
      ensures s == signalMap[outputIndexes[index]]
    {
      s := signalMap[outputIndexes[index]];
    }

    /**
     * `execute`: copies `input[i]` into slot `i` for each input id `i`,
     * runs every gate once in stored order, and returns the output signals.
     */
    method Execute(input: seq<Signal>) returns (outputs: seq<Signal>)
      requires forall k :: 0 <= k < |inputIndexes| ==> inputIndexes[k] < signalMap.Length && inputIndexes[k] < |input|
      requires Runnable(circuitGraph, signalMap.Length)
      requires forall k :: 0 <= k < |outputIndexes| ==> outputIndexes[k] < signalMap.Length
      modifies signalMap
      ensures signalMap[..] == RunWired(circuitGraph, CopyInputs(old(signalMap[..]), inputIndexes, input))
      ensures |outputs| == |outputIndexes|
      ensures forall k :: 0 <= k < |outputIndexes| ==> outputs[k] == signalMap[outputIndexes[k]]
    {
      ghost var s0 := signalMap[..];
      for k := 0 to |inputIndexes|
        invariant signalMap[..] == CopyInputs(s0, inputIndexes[..k], input)
      {
        assert inputIndexes[..k + 1][..k] == inputIndexes[..k];
        var i := inputIndexes[k];
        signalMap[i] := input[i];
      }
      assert inputIndexes[..|inputIndexes|] == inputIndexes;
      ghost var copied := signalMap[..];
      var j := 0;
      while j < |circuitGraph|
        invariant j <= |circuitGraph|
        invariant RunWired(circuitGraph[j..], signalMap[..]) == RunWired(circuitGraph, copied)
      {
        assert circuitGraph[j..][1..] == circuitGraph[j + 1..];
        circuitGraph[j].Execute(signalMap);
        j := j + 1;
      }
      var store, outputTable := signalMap[..], outputIndexes;
      outputs := seq(|outputTable|, k requires 0 <= k < |outputTable| => store[outputTable[k]]);
    }
  }

  /**
   * The test of src/main.rs: one input and one output, a NOT gate wired to
   * output 0, executed on a true input, yields a single false output.
   */
  method NotGateTest() returns (output: seq<Signal>)
    ensures output == [FromBool(false)]
  {
    var circuit := new Circuit(1, 1);
    circuit.AddGateToOutput(Not([0], 0));
    output := circuit.Execute([Signal(Some(true))]);
    assert circuit.circuitGraph == [Not([0], 2)];
    assert circuit.circuitGraph[1..] == [];
  }
}
