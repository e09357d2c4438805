/**
 * src/msic.rs: the mapping from a gate name and input count to a gate
 * type, and two helpers that build signal vectors.
 */
module Misc {
  import opened Signals
  import opened ArityGates

  /**
   * The name/count pairs `gain_gate_type` accepts: "and", "or" and "nand"
   * with any count, "xor" only with two inputs and "not" only with one.
   * Every other pair reaches `unreachable!()`.
   */
  predicate KnownGate(name: string, inputSize: nat) {
    || name == "and" || name == "or" || name == "nand"
    || (name == "xor" && inputSize == 2)
    || (name == "not" && inputSize == 1)
  }

  /** The name under which each kind of gate type is looked up. */
  function GateName(t: GateType): string {
    match t
    case Not(_) => "not"
    case And(_) => "and"
    case Or(_) => "or"
    case Xor(_) => "xor"
    case NAnd(_) => "nand"
  }

  /** `gain_gate_type`: the gate type named `name`, declaring `inputSize` inputs. */
  function GainGateType(name: string, inputSize: nat): (t: GateType)
    requires KnownGate(name, inputSize)
    ensures GateName(t) == name && t.size == inputSize
  {
    match name
    case "and" => And(inputSize)
    case "or" => Or(inputSize)
    case "xor" => Xor(2)
    case "not" => Not(1)
    case _ => NAnd(inputSize)
  }

  /**
   * Naming a gate type and its count gives the type back, for every type
   * the mapping can produce; xor and not types with another count have no
   * name that maps to them.
   */
  lemma GainGateTypeInverse(t: GateType)
    ensures KnownGate(GateName(t), t.size) <==> (t.Xor? ==> t.size == 2) && (t.Not? ==> t.size == 1)
    ensures KnownGate(GateName(t), t.size) ==> GainGateType(GateName(t), t.size) == t
  {
  }

  /** Distinct accepted pairs map to distinct gate types. */
  lemma GainGateTypeInjective(a: string, m: nat, b: string, n: nat)
    requires KnownGate(a, m) && KnownGate(b, n)
    requires GainGateType(a, m) == GainGateType(b, n)
    ensures a == b && m == n
  {
  }

  /**
   * `choose_signals`: one signal per index, in index order; indexing out of
   * range panics, so every index must be in range.
   */
  function ChooseSignals(signals: seq<Signal>, indexes: seq<nat>): (r: seq<Signal>)
    requires forall k :: 0 <= k < |indexes| ==> indexes[k] < |signals|
    ensures |r| == |indexes|
    ensures forall k :: 0 <= k < |indexes| ==> r[k] == signals[indexes[k]]
  {
    seq(|indexes|, k requires 0 <= k < |indexes| => signals[indexes[k]])
  }

  /** Choosing by a concatenation of index lists concatenates the choices. */
  lemma ChooseSignalsAppend(signals: seq<Signal>, a: seq<nat>, b: seq<nat>)
    requires forall k :: 0 <= k < |a| ==> a[k] < |signals|
    requires forall k :: 0 <= k < |b| ==> b[k] < |signals|
    ensures forall k :: 0 <= k < |a + b| ==> (a + b)[k] < |signals|
    ensures ChooseSignals(signals, a + b) == ChooseSignals(signals, a) + ChooseSignals(signals, b)
  {
    var l, r := ChooseSignals(signals, a + b), ChooseSignals(signals, a) + ChooseSignals(signals, b);
    assert |l| == |r|;
    forall k | 0 <= k < |l|
      ensures l[k] == r[k]
    {
      if k < |a| {
        assert (a + b)[k] == a[k];
      } else {
        assert (a + b)[k] == b[k - |a|];
      }
    }
  }

  /**
   * `usize_signal_vec`: one signal per number, in order. `Signal::from_usize`
   * is not part of this model and is a parameter here.
   */
  function UsizeSignalVec(usizeVec: seq<nat>, fromUsize: nat -> Signal): (r: seq<Signal>)
    ensures |r| == |usizeVec|
  {
    seq(|usizeVec|, k requires 0 <= k < |usizeVec| => fromUsize(usizeVec[k]))
  }
}
