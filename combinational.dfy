/**
 * src/combinational.rs: the full adder and half adder templates and the
 * builders that register them in a circuit's pattern map under
 * "full_adder" and "half_adder".
 */
module Combinational {
  import opened Patterns
  import opened ArityGates
  import opened Bits

  /**
   * The full adder over inputs c0 = `Input(0)`, a = `Input(1)` and
   * b = `Input(2)`: the sum s is node 1 and the carry c1 node 4.
   */
  function FullAdderNodes(): seq<PatternNode> {
    [ PatternNode(Xor(2), [Input(1), Input(2)]),
      PatternNode(Xor(2), [Input(0), NodeOutput(0)]),
      PatternNode(And(2), [Input(0), NodeOutput(0)]),
      PatternNode(And(2), [Input(1), Input(2)]),
      PatternNode(Or(2), [NodeOutput(2), NodeOutput(3)]) ]
  }

  /** The half adder over a = `Input(0)` and b = `Input(1)`: sum node 0, carry node 1. */
  function HalfAdderNodes(): seq<PatternNode> {
    [ PatternNode(Xor(2), [Input(0), Input(1)]),
      PatternNode(And(2), [Input(0), Input(1)]) ]
  }

  /** `build_full_adder`: five `add_node` calls, then registration under "full_adder". */
  method BuildFullAdder(patterns: map<string, Pattern>) returns (updated: map<string, Pattern>)
    ensures "full_adder" in updated && fresh(updated["full_adder"])
    ensures updated == patterns["full_adder" := updated["full_adder"]]
    ensures updated["full_adder"].inputSize == 3
    ensures updated["full_adder"].output == [1, 4]
    ensures updated["full_adder"].pattern == FullAdderNodes()
    ensures updated["full_adder"].portName == (["c0", "a", "b"], PairsToMap(Positions(["s", "c1"])))
    ensures updated["full_adder"].description == "c0 + a + b = c1 s"
  {
    var pattern: seq<PatternNode> := [];
    var c0, a, b := Input(0), Input(1), Input(2);
    var s, c1 := 1, 4;
    var n0, n1, n2, unused;
    pattern, n0 := AddNode(pattern, "xor", [a, b]);
    pattern, unused := AddNode(pattern, "xor", [c0, NodeOutput(n0)]);
    pattern, n1 := AddNode(pattern, "and", [c0, NodeOutput(n0)]);
    pattern, n2 := AddNode(pattern, "and", [a, b]);
    pattern, unused := AddNode(pattern, "or", [NodeOutput(n1), NodeOutput(n2)]);
    var p := new Pattern(3, [s, c1], pattern);
    p.SetName(["c0", "a", "b"], Positions(["s", "c1"]));
    p.SetDescription("c0 + a + b = c1 s");
    updated := patterns["full_adder" := p];
  }

  /** `build_half_adder`: two `add_node` calls, then registration under "half_adder". */
  method BuildHalfAdder(patterns: map<string, Pattern>) returns (updated: map<string, Pattern>)
    ensures "half_adder" in updated && fresh(updated["half_adder"])
    ensures updated == patterns["half_adder" := updated["half_adder"]]
    ensures updated["half_adder"].inputSize == 2
    ensures updated["half_adder"].output == [0, 1]
    ensures updated["half_adder"].pattern == HalfAdderNodes()
    ensures updated["half_adder"].portName == (["a", "b"], PairsToMap(Positions(["s", "c"])))
    ensures updated["half_adder"].description == ""
  {
    var pattern: seq<PatternNode> := [];
    var input := [Input(0), Input(1)];
    var aOutput, bOutput;
    pattern, aOutput := AddNode(pattern, "xor", input);
    pattern, bOutput := AddNode(pattern, "and", input);
    var p := new Pattern(2, [aOutput, bOutput], pattern);
    p.SetName(["a", "b"], Positions(["s", "c"]));
    updated := patterns["half_adder" := p];
  }

  /**
   * Both templates are structurally sound: references in range, outputs
   * naming nodes, every node buildable as a gate, and no feedback.
   */
  lemma AddersWellFormed()
    ensures WellFormed(3, [1, 4], FullAdderNodes()) && FeedForward(FullAdderNodes())
    ensures Evaluable(FullAdderNodes(), 3)
    ensures WellFormed(2, [0, 1], HalfAdderNodes()) && FeedForward(HalfAdderNodes())
    ensures Evaluable(HalfAdderNodes(), 2)
  {
    FullAdderWellFormed();
  }

  /** The full adder alone: the part of `AddersWellFormed` its evaluation needs. */
  lemma FullAdderWellFormed()
    ensures WellFormed(3, [1, 4], FullAdderNodes()) && FeedForward(FullAdderNodes())
    ensures Evaluable(FullAdderNodes(), 3)
  {
  }

  /**
   * Evaluated in stored order, node 1 of the full adder is c0 xor a xor b
   * and node 4 the majority of c0, a and b: together they are the two-bit
   * sum "c0 + a + b = c1 s" of the description.
   */
  lemma {:induction false} FullAdderSum(c0: bool, a: bool, b: bool)
    ensures Evaluable(FullAdderNodes(), 3)
    ensures Evaluate(FullAdderNodes(), [c0, a, b])[1] == (c0 != (a != b))
    ensures Evaluate(FullAdderNodes(), [c0, a, b])[4] == ((c0 && a) || (c0 && b) || (a && b))
    ensures DigitNumber(c0) + DigitNumber(a) + DigitNumber(b)
         == 2 * DigitNumber(Evaluate(FullAdderNodes(), [c0, a, b])[4]) + DigitNumber(Evaluate(FullAdderNodes(), [c0, a, b])[1])
  {
    FullAdderWellFormed();
    var ns, ins := FullAdderNodes(), [c0, a, b];
    var v := Evaluate(ns, ins);
    EvaluateAt(ns, ins, 0);
    assert v[0] == (a != b);
    EvaluateAt(ns, ins, 1);
    assert v[1] == (c0 != v[0]);
    EvaluateAt(ns, ins, 2);
    assert v[2] == (c0 && v[0]);
    EvaluateAt(ns, ins, 3);
    assert v[3] == (a && b);
    EvaluateAt(ns, ins, 4);
    assert v[4] == (v[2] || v[3]);
  }

  /** Node 0 of the half adder is a xor b and node 1 is a and b: the sum and carry bits of a + b. */
  lemma {:induction false} HalfAdderSum(a: bool, b: bool)
    ensures Evaluable(HalfAdderNodes(), 2)
    ensures Evaluate(HalfAdderNodes(), [a, b])[0] == (a != b)
    ensures Evaluate(HalfAdderNodes(), [a, b])[1] == (a && b)
    ensures DigitNumber(a) + DigitNumber(b) == 2 * DigitNumber(Evaluate(HalfAdderNodes(), [a, b])[1]) + DigitNumber(Evaluate(HalfAdderNodes(), [a, b])[0])
  {
    AddersWellFormed();
  }
}
