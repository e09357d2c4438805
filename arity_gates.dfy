/**
 * src/gate/mod.rs and src/gate/basic.rs: the fixed-arity gate revision.
 * A gate type carries a declared input count; a gate is one variant per
 * arity, holding its input ids and its single output id in fixed-size
 * arrays, here sequences whose length the type fixes.
 */
module ArityGates {
  import opened Signals
  import Gates

  datatype GateType = Not(size: nat) | And(size: nat) | Or(size: nat) | Xor(size: nat) | NAnd(size: nat)

  /** `[usize; 1]`, `[usize; 2]` and `[usize; 3]`. */
  type Ids1 = s: seq<nat> | |s| == 1 witness [0]
  type Ids2 = s: seq<nat> | |s| == 2 witness [0, 0]
  type Ids3 = s: seq<nat> | |s| == 3 witness [0, 0, 0]

  datatype LogicGate =
    | Not1(in1: Ids1, out: Ids1)
    | And2(in2: Ids2, out: Ids1)
    | Or2(in2: Ids2, out: Ids1)
    | Xor2(in2: Ids2, out: Ids1)
    | NAnd2(in2: Ids2, out: Ids1)
    | NAnd3(in3: Ids3, out: Ids1)

  /** The same kind of gate type, whatever the declared counts. */
  predicate SameKind(a: GateType, b: GateType) {
    match a
    case Not(_) => b.Not?
    case And(_) => b.And?
    case Or(_) => b.Or?
    case Xor(_) => b.Xor?
    case NAnd(_) => b.NAnd?
  }

  /** `new` builds a variant only for nand counts 2 and 3; others are unreachable. */
  predicate Constructible(t: GateType) {
    t.NAnd? ==> t.size == 2 || t.size == 3
  }

  /** How many input ids `new` keeps for a gate type. */
  function KeptInputs(t: GateType): nat {
    match t
    case Not(_) => 1
    case NAnd(n) => n
    case _ => 2
  }

  /**
   * `LogicGate::new`: the declared count picks the nand variant and is
   * otherwise ignored; only the first `KeptInputs(typ)` input ids and the
   * first output id are kept.
   */
  function New(typ: GateType, input: seq<nat>, output: seq<nat>): (g: LogicGate)
    requires Constructible(typ) && |input| >= KeptInputs(typ) && |output| >= 1
    ensures GetInput(g) == input[..KeptInputs(typ)]
    ensures GetOutput(g) == output[0]
    ensures SameKind(GetType(g), typ)
  {
    match typ
    case Not(_) => Not1([input[0]], [output[0]])
    case And(_) => And2([input[0], input[1]], [output[0]])
    case Or(_) => Or2([input[0], input[1]], [output[0]])
    case Xor(_) => Xor2([input[0], input[1]], [output[0]])
    case NAnd(n) =>
      if n == 2 then NAnd2([input[0], input[1]], [output[0]])
      else NAnd3([input[0], input[1], input[2]], [output[0]])
  }

  /** `get_type`: the kind of the variant with its real input count. */
  function GetType(g: LogicGate): (t: GateType)
    ensures t.size == |GetInput(g)|
    ensures Constructible(t) && KeptInputs(t) == t.size
  {
    match g
    case Not1(i, _) => Not(|i|)
    case And2(i, _) => And(|i|)
    case Or2(i, _) => Or(|i|)
    case Xor2(i, _) => Xor(|i|)
    case NAnd2(i, _) => NAnd(|i|)
    case NAnd3(i, _) => NAnd(|i|)
  }

  /** `get_input`: the stored input array, of the variant's arity. */
  function GetInput(g: LogicGate): (ids: seq<nat>)
    ensures |ids| == (if g.Not1? then 1 else if g.NAnd3? then 3 else 2)
    ensures g.Not1? ==> ids == g.in1
    ensures g.NAnd3? ==> ids == g.in3
    ensures !g.Not1? && !g.NAnd3? ==> ids == g.in2
  {
    match g
    case Not1(i, _) => i
    case And2(i, _) => i
    case Or2(i, _) => i
    case Xor2(i, _) => i
    case NAnd2(i, _) => i
    case NAnd3(i, _) => i
  }

  /** `get_output`: the one output id every variant stores. */
  function GetOutput(g: LogicGate): (o: nat)
    ensures g.out == [o]
  {
    g.out[0]
  }

  /**
   * `get_type` after `new` gives back the declared type exactly when the
   * declared count is the one the variant holds: `Not(1)`, a two-input
   * and/or/xor, or either nand.
   */
  lemma TypeRoundTrip(t: GateType, input: seq<nat>, output: seq<nat>)
    requires Constructible(t) && |input| >= KeptInputs(t) && |output| >= 1
    ensures GetType(New(t, input, output)) == t <==> t.size == KeptInputs(t)
  {
    var g := New(t, input, output);
    assert |GetInput(g)| == KeptInputs(t);
  }

  /** Rebuilding a gate from its own accessors gives the same gate. */
  lemma {:induction false} NewFromAccessors(g: LogicGate)
    ensures New(GetType(g), GetInput(g), [GetOutput(g)]) == g
  {
    match g
    case Not1(i, o) => assert [i[0]] == i && [o[0]] == o;
    case And2(i, o) => assert [i[0], i[1]] == i && [o[0]] == o;
    case Or2(i, o) => assert [i[0], i[1]] == i && [o[0]] == o;
    case Xor2(i, o) => assert [i[0], i[1]] == i && [o[0]] == o;
    case NAnd2(i, o) => assert [i[0], i[1]] == i && [o[0]] == o;
    case NAnd3(i, o) => assert [i[0], i[1], i[2]] == i && [o[0]] == o;
  }

  // The signal methods `.not`, `.and`, `.or` and `.xor` the gates call,
  // with the two-valued meaning of src/gate.rs: both operands must be known.

  function SignalNot(a: Signal): (r: Signal)
    requires Known(a)
    ensures Known(r) && GetUnchecked(r) == !GetUnchecked(a)
  {
    FromBool(!GetUnchecked(a))
  }

  function SignalAnd(a: Signal, b: Signal): (r: Signal)
    requires Known(a) && Known(b)
    ensures Known(r) && GetUnchecked(r) == (GetUnchecked(a) && GetUnchecked(b))
  {
    FromBool(GetUnchecked(a) && GetUnchecked(b))
  }

  function SignalOr(a: Signal, b: Signal): (r: Signal)
    requires Known(a) && Known(b)
    ensures Known(r) && GetUnchecked(r) == (GetUnchecked(a) || GetUnchecked(b))
  {
    FromBool(GetUnchecked(a) || GetUnchecked(b))
  }

  function SignalXor(a: Signal, b: Signal): (r: Signal)
    requires Known(a) && Known(b)
    ensures Known(r) && GetUnchecked(r) == (GetUnchecked(a) != GetUnchecked(b))
  {
    var l, r := GetUnchecked(a), GetUnchecked(b);
    FromBool((!l && r) || (l && !r))
  }

  /**
   * `execute` does not panic on store `s`: every id the gate stores is in
   * range and every input it reads is known.
   */
  predicate Ready(g: LogicGate, s: seq<Signal>) {
    GetOutput(g) < |s| && IdsReady(GetInput(g), s)
  }

  /** Every id of `ids` names a known slot of `s`. */
  predicate IdsReady(ids: seq<nat>, s: seq<Signal>) {
    forall k :: 0 <= k < |ids| ==> ids[k] < |s| && Known(s[ids[k]])
  }

  /** The signal a gate writes to its output slot, read from store `s`. */
  function Written(g: LogicGate, s: seq<Signal>): (r: Signal)
    requires Ready(g, s)
    ensures Known(r)
    ensures g.NAnd2? ==>
      GetUnchecked(r) == !(GetUnchecked(s[g.in2[0]]) && GetUnchecked(s[g.in2[1]]))
    ensures g.NAnd3? ==>
      GetUnchecked(r) == !(GetUnchecked(s[g.in3[0]]) && GetUnchecked(s[g.in3[1]]) && GetUnchecked(s[g.in3[2]]))
  {
    var i := GetInput(g);
    assert IdsReady(i, s);
    match g
    case Not1(_, _) => SignalNot(s[i[0]])
    case And2(_, _) => SignalAnd(s[i[0]], s[i[1]])
    case Or2(_, _) => SignalOr(s[i[0]], s[i[1]])
    case Xor2(_, _) => SignalXor(s[i[0]], s[i[1]])
    case NAnd2(_, _) => SignalNot(SignalAnd(s[i[0]], s[i[1]]))
    case NAnd3(_, _) => SignalNot(SignalAnd(SignalAnd(s[i[0]], s[i[1]]), s[i[2]]))
  }

  /** The store after `execute`: only the output slot changes. */
  function Apply(g: LogicGate, s: seq<Signal>): (r: seq<Signal>)
    requires Ready(g, s)
    ensures |r| == |s| && r[GetOutput(g)] == Written(g, s)
    ensures forall k :: 0 <= k < |s| && k != GetOutput(g) ==> r[k] == s[k]
  {
    s[GetOutput(g) := Written(g, s)]
  }

  /** `LogicGate::execute`, writing `ctx[output[0]]` in place. */
  method Execute(g: LogicGate, ctx: array<Signal>)
    requires Ready(g, ctx[..])
    modifies ctx
    ensures ctx[..] == Apply(g, old(ctx[..]))
  {
    assert IdsReady(GetInput(g), ctx[..]);
    match g
    case Not1(i, o) =>
      ctx[o[0]] := SignalNot(ctx[i[0]]);
    case And2(i, o) =>
      ctx[o[0]] := SignalAnd(ctx[i[0]], ctx[i[1]]);
    case Or2(i, o) =>
      ctx[o[0]] := SignalOr(ctx[i[0]], ctx[i[1]]);
    case Xor2(i, o) =>
      ctx[o[0]] := SignalXor(ctx[i[0]], ctx[i[1]]);
    case NAnd2(i, o) =>
      ctx[o[0]] := SignalNot(SignalAnd(ctx[i[0]], ctx[i[1]]));
    case NAnd3(i, o) =>
      ctx[o[0]] := SignalNot(SignalAnd(SignalAnd(ctx[i[0]], ctx[i[1]]), ctx[i[2]]));
  }

  /** The first-revision gate kind that shares a variant's boolean function. */
  function Rev1Kind(g: LogicGate): Gates.GateType
    requires !g.NAnd2? && !g.NAnd3?
  {
    match g
    case Not1(_, _) => Gates.Not
    case And2(_, _) => Gates.And
    case Or2(_, _) => Gates.Or
    case Xor2(_, _) => Gates.Xor
  }

  /**
   * Not1, And2, Or2 and Xor2 execute exactly as the first-revision gate of
   * the same kind over the same ids.
   */
  lemma AgreesWithRev1(g: LogicGate, s: seq<Signal>)
    requires !g.NAnd2? && !g.NAnd3? && Ready(g, s)
    ensures Gates.Ready(Gates.New(Rev1Kind(g), GetInput(g), [GetOutput(g)]), s)
    ensures Apply(g, s) == Gates.Apply(Gates.New(Rev1Kind(g), GetInput(g), [GetOutput(g)]), s)
  {
    var h := Gates.New(Rev1Kind(g), GetInput(g), [GetOutput(g)]);
    assert IdsReady(GetInput(g), s);
    assert Gates.Ready(h, s);
    assert Written(g, s) == FromBool(Gates.Value(h, s));
  }
}
