/**
 * src/gate.rs: the first gate revision. A gate has a kind, a list of input
 * signal ids and a list of output ids; executing it writes one slot of the
 * signal store.
 */
module Gates {
  import opened Signals

  datatype GateType = Not | And | Or | Xor

  datatype LogicGate = LogicGate(typ: GateType, input: seq<nat>, output: seq<nat>)

  /** `LogicGate::new`: keeps the kind and copies of both id slices. */
  function New(typ: GateType, input: seq<nat>, output: seq<nat>): (g: LogicGate)
    ensures g.typ == typ && g.input == input && g.output == output
  {
    LogicGate(typ, input, output)
  }

  /** How many input ids `execute` reads for each kind. */
  function Arity(typ: GateType): nat {
    if typ == Not then 1 else 2
  }

  /** The boolean function of each kind; `r` is ignored by `Not`. */
  function Semantics(typ: GateType, l: bool, r: bool): (b: bool)
    ensures typ == Xor ==> (b <==> l != r)
  {
    match typ
    case Not => !l
    case And => l && r
    case Or => l || r
    case Xor => (!l && r) || (l && !r)
  }

  /** The gate has an output id and as many input ids as its kind reads. */
  predicate Shapely(g: LogicGate) {
    |g.output| >= 1 && |g.input| >= Arity(g.typ)
  }

  /**
   * `execute` does not panic on store `s`: the ids it touches are in range
   * and every operand it unwraps is known.
   */
  predicate Ready(g: LogicGate, s: seq<Signal>) {
    && Shapely(g)
    && g.output[0] < |s|
    && forall k :: 0 <= k < Arity(g.typ) ==> g.input[k] < |s| && Known(s[g.input[k]])
  }

  /** The boolean the gate writes, read from store `s`. */
  function Value(g: LogicGate, s: seq<Signal>): bool
    requires Ready(g, s)
  {
    var l := GetUnchecked(s[g.input[0]]);
    var r := if Arity(g.typ) == 2 then GetUnchecked(s[g.input[1]]) else false;
    Semantics(g.typ, l, r)
  }

  /**
   * The store after executing `g` once: slot `output[0]` holds the known
   * result and every other slot is as before.
   */
  function Apply(g: LogicGate, s: seq<Signal>): (r: seq<Signal>)
    requires Ready(g, s)
    ensures |r| == |s|
    ensures Known(r[g.output[0]]) && GetUnchecked(r[g.output[0]]) == Value(g, s)
    ensures forall k :: 0 <= k < |s| && k != g.output[0] ==> r[k] == s[k]
  {
    s[g.output[0] := FromBool(Value(g, s))]
  }

  /** `LogicGate::execute`, writing `ctx[output[0]]` in place. */
  method Execute(g: LogicGate, ctx: array<Signal>)
    requires Ready(g, ctx[..])
    modifies ctx
    ensures ctx[..] == Apply(g, old(ctx[..]))
  {
    match g.typ
    case Not =>
      ctx[g.output[0]] := FromBool(!GetUnchecked(ctx[g.input[0]]));
    case And =>
      var l := GetUnchecked(ctx[g.input[0]]);
      var r := GetUnchecked(ctx[g.input[1]]);
      ctx[g.output[0]] := FromBool(l && r);
    case Or =>
      var l := GetUnchecked(ctx[g.input[0]]);
      var r := GetUnchecked(ctx[g.input[1]]);
      ctx[g.output[0]] := FromBool(l || r);
    case Xor =>
      var l := GetUnchecked(ctx[g.input[0]]);
      var r := GetUnchecked(ctx[g.input[1]]);
      ctx[g.output[0]] := FromBool((!l && r) || (l && !r));
  }
}
