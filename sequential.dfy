/**
 * src/sequential.rs: the flip-flop templates (JK, T, D, clocked RS and the
 * basic RS latch) built from NAND nodes, and the builders that register
 * them under "jkff", "tff", "dff", "rsff" and "brsff". Every template but
 * the basic latch reserves nodes 2 (nq) and 3 (q) as its outputs before
 * those nodes exist, so its first nodes refer forward to them.
 */
module Sequential {
  import opened Patterns
  import opened ArityGates

  /** JK flip-flop over k = `Input(0)`, cp = `Input(1)`, j = `Input(2)`. */
  function JkffNodes(): seq<PatternNode> {
    [ PatternNode(NAnd(3), [Input(0), Input(1), NodeOutput(3)]),
      PatternNode(NAnd(3), [NodeOutput(2), Input(1), Input(2)]),
      PatternNode(NAnd(2), [NodeOutput(0), NodeOutput(3)]),
      PatternNode(NAnd(2), [NodeOutput(1), NodeOutput(2)]) ]
  }

  /** T flip-flop over cp = `Input(0)`, t = `Input(1)`. */
  function TffNodes(): seq<PatternNode> {
    [ PatternNode(NAnd(3), [Input(1), Input(0), NodeOutput(3)]),
      PatternNode(NAnd(3), [NodeOutput(2), Input(0), Input(1)]),
      PatternNode(NAnd(2), [NodeOutput(0), NodeOutput(3)]),
      PatternNode(NAnd(2), [NodeOutput(1), NodeOutput(2)]) ]
  }

  /** D flip-flop over cp = `Input(0)`, d = `Input(1)`. */
  function DffNodes(): seq<PatternNode> {
    [ PatternNode(NAnd(2), [Input(0), Input(1)]),
      PatternNode(NAnd(2), [Input(0), NodeOutput(0)]),
      PatternNode(NAnd(2), [NodeOutput(0), NodeOutput(3)]),
      PatternNode(NAnd(2), [NodeOutput(1), NodeOutput(2)]) ]
  }

  /** Clocked RS flip-flop over r = `Input(0)`, cp = `Input(1)`, s = `Input(2)`. */
  function RsffNodes(): seq<PatternNode> {
    [ PatternNode(NAnd(2), [Input(0), Input(1)]),
      PatternNode(NAnd(2), [Input(1), Input(2)]),
      PatternNode(NAnd(2), [NodeOutput(1), NodeOutput(3)]),
      PatternNode(NAnd(2), [NodeOutput(2), NodeOutput(0)]) ]
  }

  /** Basic RS latch over rd = `Input(0)`, sd = `Input(1)`. */
  function BrsffNodes(): seq<PatternNode> {
    [ PatternNode(NAnd(2), [Input(0), NodeOutput(1)]),
      PatternNode(NAnd(2), [Input(1), NodeOutput(0)]) ]
  }

  /** `build_jkff`. */
  method BuildJkff(patterns: map<string, Pattern>) returns (updated: map<string, Pattern>)
    ensures "jkff" in updated && fresh(updated["jkff"])
    ensures updated == patterns["jkff" := updated["jkff"]]
    ensures updated["jkff"].inputSize == 3 && updated["jkff"].output == [2, 3]
    ensures updated["jkff"].pattern == JkffNodes()
    ensures updated["jkff"].portName == (["k", "cp", "j"], PairsToMap(Positions(["nq", "q"])))
    ensures updated["jkff"].description == "Qn+1 = (J and not(Qn)) or (not(K) and Qn)"
  {
    var pattern: seq<PatternNode> := [];
    var k, cp, j := Input(0), Input(1), Input(2);
    var nq, q := 2, 3;
    var n0, n1, third, fourth;
    pattern, n0 := AddNode(pattern, "nand", [k, cp, NodeOutput(q)]);
    pattern, n1 := AddNode(pattern, "nand", [NodeOutput(nq), cp, j]);
    pattern, third := AddNode(pattern, "nand", [NodeOutput(n0), NodeOutput(q)]);
    pattern, fourth := AddNode(pattern, "nand", [NodeOutput(n1), NodeOutput(nq)]);
    assert third == nq && fourth == q;
    var p := new Pattern(3, [nq, q], pattern);
    p.SetName(["k", "cp", "j"], Positions(["nq", "q"]));
    p.SetDescription("Qn+1 = (J and not(Qn)) or (not(K) and Qn)");
    updated := patterns["jkff" := p];
  }

  /** `build_tff`. */
  method BuildTff(patterns: map<string, Pattern>) returns (updated: map<string, Pattern>)
    ensures "tff" in updated && fresh(updated["tff"])
    ensures updated == patterns["tff" := updated["tff"]]
    ensures updated["tff"].inputSize == 2 && updated["tff"].output == [2, 3]
    ensures updated["tff"].pattern == TffNodes()
    ensures updated["tff"].portName == (["cp", "t"], PairsToMap(Positions(["nq", "q"])))
    ensures updated["tff"].description == "Qn+1 = Qn xor T"
  {
    var pattern: seq<PatternNode> := [];
    var cp, t := Input(0), Input(1);
    var nq, q := 2, 3;
    var n0, n1, third, fourth;
    pattern, n0 := AddNode(pattern, "nand", [t, cp, NodeOutput(q)]);
    pattern, n1 := AddNode(pattern, "nand", [NodeOutput(nq), cp, t]);
    pattern, third := AddNode(pattern, "nand", [NodeOutput(n0), NodeOutput(q)]);
    pattern, fourth := AddNode(pattern, "nand", [NodeOutput(n1), NodeOutput(nq)]);
    assert third == nq && fourth == q;
    var p := new Pattern(2, [nq, q], pattern);
    p.SetName(["cp", "t"], Positions(["nq", "q"]));
    p.SetDescription("Qn+1 = Qn xor T");
    updated := patterns["tff" := p];
  }

  /** `build_dff`. */
  method BuildDff(patterns: map<string, Pattern>) returns (updated: map<string, Pattern>)
    ensures "dff" in updated && fresh(updated["dff"])
    ensures updated == patterns["dff" := updated["dff"]]
    ensures updated["dff"].inputSize == 2 && updated["dff"].output == [2, 3]
    ensures updated["dff"].pattern == DffNodes()
    ensures updated["dff"].portName == (["cp", "d"], PairsToMap(Positions(["nq", "q"])))
    ensures updated["dff"].description == "Qn+1 = D"
  {
    var pattern: seq<PatternNode> := [];
    var cp, d := Input(0), Input(1);
    var nq, q := 2, 3;
    var n0, n1, third, fourth;
    pattern, n0 := AddNode(pattern, "nand", [cp, d]);
    pattern, n1 := AddNode(pattern, "nand", [cp, NodeOutput(n0)]);
    pattern, third := AddNode(pattern, "nand", [NodeOutput(n0), NodeOutput(q)]);
    pattern, fourth := AddNode(pattern, "nand", [NodeOutput(n1), NodeOutput(nq)]);
    assert third == nq && fourth == q;
    var p := new Pattern(2, [nq, q], pattern);
    p.SetName(["cp", "d"], Positions(["nq", "q"]));
    p.SetDescription("Qn+1 = D");
    updated := patterns["dff" := p];
  }

  /** `build_rsff`. */
  method BuildRsff(patterns: map<string, Pattern>) returns (updated: map<string, Pattern>)
    ensures "rsff" in updated && fresh(updated["rsff"])
    ensures updated == patterns["rsff" := updated["rsff"]]
    ensures updated["rsff"].inputSize == 3 && updated["rsff"].output == [2, 3]
    ensures updated["rsff"].pattern == RsffNodes()
    ensures updated["rsff"].portName == (["r", "cp", "s"], PairsToMap(Positions(["nq", "q"])))
    ensures updated["rsff"].description == "Qn+1 = S or (not(R) and Qn)"
  {
    var pattern: seq<PatternNode> := [];
    var r, cp, s := Input(0), Input(1), Input(2);
    var nq, q := 2, 3;
    var n0, n1, third, fourth;
    pattern, n0 := AddNode(pattern, "nand", [r, cp]);
    pattern, n1 := AddNode(pattern, "nand", [cp, s]);
    pattern, third := AddNode(pattern, "nand", [NodeOutput(n1), NodeOutput(q)]);
    pattern, fourth := AddNode(pattern, "nand", [NodeOutput(nq), NodeOutput(n0)]);
    assert third == nq && fourth == q;
    var p := new Pattern(3, [nq, q], pattern);
    p.SetName(["r", "cp", "s"], Positions(["nq", "q"]));
    p.SetDescription("Qn+1 = S or (not(R) and Qn)");
    updated := patterns["rsff" := p];
  }

  /** `build_basic_rsff`: the two nodes' positions are its outputs. */
  method BuildBasicRsff(patterns: map<string, Pattern>) returns (updated: map<string, Pattern>)
    ensures "brsff" in updated && fresh(updated["brsff"])
    ensures updated == patterns["brsff" := updated["brsff"]]
    ensures updated["brsff"].inputSize == 2 && updated["brsff"].output == [0, 1]
    ensures updated["brsff"].pattern == BrsffNodes()
    ensures updated["brsff"].portName == (["rd", "sd"], PairsToMap(Positions(["nq", "q"])))
    ensures updated["brsff"].description == ""
  {
    var pattern: seq<PatternNode> := [];
    var nq, q;
    pattern, nq := AddNode(pattern, "nand", [Input(0), NodeOutput(1)]);
    pattern, q := AddNode(pattern, "nand", [Input(1), NodeOutput(0)]);
    var p := new Pattern(2, [nq, q], pattern);
    p.SetName(["rd", "sd"], Positions(["nq", "q"]));
    updated := patterns["brsff" := p];
  }

  /** Every node of `nodes` is a NAND gate. */
  predicate AllNand(nodes: seq<PatternNode>) {
    forall i :: 0 <= i < |nodes| ==> nodes[i].gateType.NAnd?
  }

  /**
   * Each flip-flop is well formed for its input count: every `Input(k)`
   * below it, every `NodeOutput` and output naming one of its NAND nodes,
   * each node buildable as a 2- or 3-input NAND gate.
   */
  lemma FlipFlopsWellFormed()
    ensures WellFormed(3, [2, 3], JkffNodes()) && AllNand(JkffNodes())
    ensures WellFormed(2, [2, 3], TffNodes()) && AllNand(TffNodes())
    ensures WellFormed(2, [2, 3], DffNodes()) && AllNand(DffNodes())
    ensures WellFormed(3, [2, 3], RsffNodes()) && AllNand(RsffNodes())
    ensures WellFormed(2, [0, 1], BrsffNodes()) && AllNand(BrsffNodes())
  {
    NandTemplateWellFormed(3, [2, 3], JkffNodes());
    NandTemplateWellFormed(2, [2, 3], TffNodes());
    NandTemplateWellFormed(2, [2, 3], DffNodes());
    NandTemplateWellFormed(3, [2, 3], RsffNodes());
    NandTemplateWellFormed(2, [0, 1], BrsffNodes());
  }

  /**
   * A template of 2- and 3-input NAND nodes, each with as many inputs as it
   * declares, is well formed when its references and outputs are in range.
   */
  lemma NandTemplateWellFormed(inputSize: nat, output: seq<nat>, nodes: seq<PatternNode>)
    requires forall i :: 0 <= i < |nodes| ==>
      nodes[i].gateType in {NAnd(2), NAnd(3)} && |nodes[i].input| == nodes[i].gateType.size
    requires forall i :: 0 <= i < |nodes| ==> forall k :: 0 <= k < |nodes[i].input| ==>
      InRange(nodes[i].input[k], inputSize, |nodes|)
    requires forall k :: 0 <= k < |output| ==> output[k] < |nodes|
    ensures WellFormed(inputSize, output, nodes) && AllNand(nodes)
  {
  }

  /**
   * The JK and T templates start with 3-input NANDs that read q, node 3,
   * which is stored after them: the templates have feedback. The D and RS
   * templates have it too, at node 2.
   */
  lemma FlipFlopsFeedBack()
    ensures JkffNodes()[0].gateType == NAnd(3) && NodeOutput(3) in JkffNodes()[0].input
    ensures TffNodes()[0].gateType == NAnd(3) && NodeOutput(3) in TffNodes()[0].input
    ensures !FeedForward(JkffNodes()) && !FeedForward(TffNodes())
    ensures !FeedForward(DffNodes()) && !FeedForward(RsffNodes())
  {
    assert !Earlier(JkffNodes()[0].input[2], 0);
    assert !Earlier(TffNodes()[0].input[2], 0);
    assert !Earlier(DffNodes()[2].input[1], 2);
    assert !Earlier(RsffNodes()[2].input[1], 2);
  }

  /** The basic latch is two cross-coupled NANDs: each reads the other's output. */
  lemma BrsffCrossCoupled()
    ensures BrsffNodes()[0].input == [Input(0), NodeOutput(1)]
    ensures BrsffNodes()[1].input == [Input(1), NodeOutput(0)]
    ensures !FeedForward(BrsffNodes())
  {
    assert !Earlier(BrsffNodes()[0].input[1], 0);
  }
}
