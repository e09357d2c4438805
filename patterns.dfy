/**
 * src/pattern.rs: a pattern is a reusable sub-circuit template. Its nodes
 * are gate types whose inputs are either pattern inputs (`Input(k)`) or
 * the outputs of other nodes of the same pattern (`NodeOutput(j)`); it
 * names its ports and carries a free-text description.
 */
module Patterns {
  import opened Wrappers
  import opened Signals
  import opened Text
  import opened ArityGates
  import Misc

  datatype PniType = Input(k: nat) | NodeOutput(n: nat)

  datatype PatternNode = PatternNode(gateType: GateType, input: seq<PniType>)

  /** `PatternNode::new`: the gate type and the input list, unchanged. */
  function NewNode(gateType: GateType, input: seq<PniType>): (p: PatternNode)
    ensures p.gateType == gateType && p.input == input
  {
    PatternNode(gateType, input)
  }

  /**
   * The name-to-index map `collect` builds from `(name, index)` pairs:
   * pairs are inserted in order, so a later pair for the same name wins.
   */
  function PairsToMap(pairs: seq<(string, nat)>): (m: map<string, nat>)
    ensures forall name :: name in m <==> exists k :: 0 <= k < |pairs| && pairs[k].0 == name
    decreases |pairs|
  {
    if pairs == [] then map[]
    else
      var init := pairs[..|pairs| - 1];
      var last := pairs[|pairs| - 1];
      assert forall k :: 0 <= k < |init| ==> init[k] == pairs[k];
      PairsToMap(init)[last.0 := last.1]
  }

  /** A name is mapped to the index of its last pair. */
  lemma {:induction false} PairsToMapLast(pairs: seq<(string, nat)>, k: nat)
    requires k < |pairs|
    requires forall j :: k < j < |pairs| ==> pairs[j].0 != pairs[k].0
    ensures pairs[k].0 in PairsToMap(pairs) && PairsToMap(pairs)[pairs[k].0] == pairs[k].1
    decreases |pairs|
  {
    if k < |pairs| - 1 {
      var init := pairs[..|pairs| - 1];
      assert init[k] == pairs[k];
      PairsToMapLast(init, k);
    }
  }

  /**
   * The template builders call `set_name` with bare output names where the method
   * takes `(name, index)` pairs; each name is paired here with its position
   * in the output list. This pairing is an assumption of the model.
   */
  function Positions(names: seq<string>): (pairs: seq<(string, nat)>)
    ensures |pairs| == |names|
    ensures forall k :: 0 <= k < |names| ==> pairs[k] == (names[k], k)
  {
    seq(|names|, k requires 0 <= k < |names| => (names[k], k))
  }

  /** With distinct names, each output name maps to its own position. */
  lemma PositionsMap(names: seq<string>, k: nat)
    requires k < |names|
    requires forall j :: 0 <= j < |names| && j != k ==> names[j] != names[k]
    ensures names[k] in PairsToMap(Positions(names)) && PairsToMap(Positions(names))[names[k]] == k
  {
    PairsToMapLast(Positions(names), k);
  }

  class Pattern {
    var inputSize: nat
    var output: seq<nat>
    var pattern: seq<PatternNode>
    var portName: (seq<string>, map<string, nat>)
    var description: string

    /** `Pattern::new`: no port names and an empty description yet. */
    constructor (inputSize: nat, output: seq<nat>, pattern: seq<PatternNode>)
      ensures this.inputSize == inputSize && this.output == output && this.pattern == pattern
      ensures portName == ([], map[]) && description == ""
    {
      this.inputSize := inputSize;
      this.output := output;
      this.pattern := pattern;
      portName := ([], map[]);
      description := "";
    }

    /** `set_name`: replaces the port names and nothing else. */
    method SetName(inputName: seq<string>, outputName: seq<(string, nat)>)
      modifies this
      ensures portName == (inputName, PairsToMap(outputName))
      ensures inputSize == old(inputSize) && output == old(output) && pattern == old(pattern)
      ensures description == old(description)
    {
      portName := (inputName, PairsToMap(outputName));
    }

    /** `set_description`: replaces the description and nothing else. */
    method SetDescription(d: string)
      modifies this
      ensures description == d
      ensures inputSize == old(inputSize) && output == old(output) && pattern == old(pattern)
      ensures portName == old(portName)
    {
      description := d;
    }

    /**
     * `Display for Pattern`: a header line with the input count and the
     * output list, then one line per node in stored order. `Display for
     * GateType` is not part of this model and is the parameter `gateText`.
     */
    function Display(gateText: GateType -> string): (r: string)
      reads this
      ensures var h := "input size: " + NatToString(inputSize) + ", output node: " + ShowNats(output) + "\n";
        |h| <= |r| && r[..|h|] == h && r[|h|..] == Lines(pattern, gateText)
      ensures (forall t :: NoNewline(gateText(t))) ==> CountNewlines(r) == |pattern| + 1
    {
      var h := Header(inputSize, output);
      var r := h + Lines(pattern, gateText);
      assert r[..|h|] == h && r[|h|..] == Lines(pattern, gateText);
      DisplayLineCount(inputSize, output, pattern, gateText);
      r
    }
  }

  /** `Debug for PniType`: "I(v)" for a pattern input, "N(v)" for a node output. */
  function ShowPni(p: PniType): (r: string)
    ensures |r| >= 4 && r[1] == '(' && r[|r| - 1] == ')'
    ensures r[0] == (if p.Input? then 'I' else 'N')
    ensures AllDigits(r[2..|r| - 1]) && |r[2..|r| - 1]| >= 1
  {
    match p
    case Input(v) => "I(" + NatToString(v) + ")"
    case NodeOutput(v) => "N(" + NatToString(v) + ")"
  }

  /** Reads back a rendering of the form "I(digits)" or "N(digits)". */
  function ParsePni(s: string): Option<PniType> {
    if |s| >= 4 && (s[0] == 'I' || s[0] == 'N') && s[1] == '(' && s[|s| - 1] == ')'
       && AllDigits(s[2..|s| - 1])
    then
      var v := ParseNat(s[2..|s| - 1]);
      Some(if s[0] == 'I' then Input(v) else NodeOutput(v))
    else None
  }

  /** The rendering of a node input loses nothing. */
  lemma ShowPniRoundTrip(p: PniType)
    ensures ParsePni(ShowPni(p)) == Some(p)
  {
    var v := if p.Input? then p.k else p.n;
    var r := ShowPni(p);
    assert r[2..|r| - 1] == NatToString(v);
    ParseNatToString(v);
  }

  /** A rendered node input is never empty and holds no comma. */
  lemma ShowPniNoComma(p: PniType)
    ensures ShowPni(p) != [] && NoComma(ShowPni(p))
  {
    var r := ShowPni(p);
    forall j | 0 <= j < |r|
      ensures r[j] != ','
    {
      if 2 <= j < |r| - 1 {
        assert r[j] == r[2..|r| - 1][j - 2];
      }
    }
  }

  /** Reads back a list of rendered node inputs, failing on any bad element. */
  function ParseAll(items: seq<string>): Option<seq<PniType>>
    decreases |items|
  {
    if items == [] then Some([])
    else match (ParsePni(items[0]), ParseAll(items[1..]))
      case (Some(p), Some(ps)) => Some([p] + ps)
      case _ => None
  }

  /** Each node input rendered on its own, in order. */
  function PniTexts(input: seq<PniType>): (parts: seq<string>)
    ensures |parts| == |input| && forall k :: 0 <= k < |input| ==> parts[k] == ShowPni(input[k])
    decreases |input|
  {
    if input == [] then [] else [ShowPni(input[0])] + PniTexts(input[1..])
  }

  /** The `Debug` rendering of a node's `Vec<PniType>`. */
  function ShowInputs(input: seq<PniType>): string {
    Bracketed(PniTexts(input))
  }

  /** A node's rendered input list reads back as that list, in order. */
  lemma {:induction false} ShowInputsRoundTrip(input: seq<PniType>)
    ensures ParseAll(ParseList(ShowInputs(input))) == Some(input)
  {
    var parts := PniTexts(input);
    forall k | 0 <= k < |parts|
      ensures parts[k] != [] && NoComma(parts[k])
    {
      ShowPniNoComma(input[k]);
    }
    BracketedRoundTrip(parts);
    ParseAllShown(input);
  }

  lemma {:induction false} ParseAllShown(input: seq<PniType>)
    ensures ParseAll(PniTexts(input)) == Some(input)
    decreases |input|
  {
    if input != [] {
      var parts := PniTexts(input);
      assert parts[0] == ShowPni(input[0]) && parts[1..] == PniTexts(input[1..]);
      ParseAllShown(input[1..]);
      ShowPniRoundTrip(input[0]);
      assert [input[0]] + input[1..] == input;
    }
  }


  /** `Display for PatternNode`: the input list, an arrow, the gate type. */
  function ShowNode(node: PatternNode, gateText: GateType -> string): (r: string)
    ensures |r| >= 6 + |gateText(node.gateType)| && r[0] == '['
    ensures r[|r| - |gateText(node.gateType)| - 5..] == "] -> " + gateText(node.gateType)
  {
    ShowInputs(node.input) + " -> " + gateText(node.gateType)
  }

  /** What precedes " -> " and the gate text reads back as the node's inputs, in order. */
  lemma ShowNodeInputs(node: PatternNode, gateText: GateType -> string)
    ensures var r := ShowNode(node, gateText);
      ParseAll(ParseList(r[..|r| - |gateText(node.gateType)| - 4])) == Some(node.input)
  {
    var r := ShowNode(node, gateText);
    assert r[..|r| - |gateText(node.gateType)| - 4] == ShowInputs(node.input);
    ShowInputsRoundTrip(node.input);
  }

  function Header(inputSize: nat, output: seq<nat>): string {
    "input size: " + NatToString(inputSize) + ", output node: " + ShowNats(output) + "\n"
  }

  /** The node lines of `Display for Pattern`, each ended by a newline. */
  function Lines(nodes: seq<PatternNode>, gateText: GateType -> string): string
    decreases |nodes|
  {
    if nodes == [] then "" else ShowNode(nodes[0], gateText) + "\n" + Lines(nodes[1..], gateText)
  }

  /** A single node gives a single line. */
  lemma LinesOne(node: PatternNode, gateText: GateType -> string)
    ensures Lines([node], gateText) == ShowNode(node, gateText) + "\n"
  {
    assert [node][1..] == [];
  }

  /** The lines of consecutive node lists follow each other. */
  lemma {:induction false} LinesAppend(a: seq<PatternNode>, b: seq<PatternNode>, gateText: GateType -> string)
    ensures Lines(a + b, gateText) == Lines(a, gateText) + Lines(b, gateText)
    decreases |a|
  {
    if a == [] {
      assert a + b == b;
    } else {
      assert (a + b)[0] == a[0];
      assert (a + b)[1..] == a[1..] + b;
      LinesAppend(a[1..], b, gateText);
    }
  }

  /**
   * Node `k`'s line comes after the lines of nodes `0 .. k-1` and before
   * those of the nodes after it: the lines keep the stored order.
   */
  lemma LinesAt(nodes: seq<PatternNode>, k: nat, gateText: GateType -> string)
    requires k < |nodes|
    ensures Lines(nodes, gateText) == Lines(nodes[..k], gateText) + Lines(nodes[k..], gateText)
    ensures Lines(nodes[k..], gateText) == ShowNode(nodes[k], gateText) + "\n" + Lines(nodes[k + 1..], gateText)
  {
    assert nodes == nodes[..k] + nodes[k..];
    LinesAppend(nodes[..k], nodes[k..], gateText);
    assert nodes[k..][0] == nodes[k] && nodes[k..][1..] == nodes[k + 1..];
  }


  function CountNewlines(s: string): nat
    decreases |s|
  {
    if s == [] then 0 else (if s[0] == '\n' then 1 else 0) + CountNewlines(s[1..])
  }

  lemma {:induction false} CountNewlinesAppend(a: string, b: string)
    ensures CountNewlines(a + b) == CountNewlines(a) + CountNewlines(b)
    decreases |a|
  {
    if a == [] {
      assert a + b == b;
    } else {
      assert (a + b)[0] == a[0];
      assert (a + b)[1..] == a[1..] + b;
      CountNewlinesAppend(a[1..], b);
    }
  }

  lemma {:induction false} NoNewlineCount(s: string)
    requires NoNewline(s)
    ensures CountNewlines(s) == 0
    decreases |s|
  {
    if s != [] {
      assert NoNewline(s[1..]) by {
        forall k | 0 <= k < |s[1..]|
          ensures s[1..][k] != '\n'
        {
          assert s[1..][k] == s[k + 1];
        }
      }
      NoNewlineCount(s[1..]);
    }
  }

  /** A node renders on one line when the gate type does. */
  lemma ShowNodeNoNewline(node: PatternNode, gateText: GateType -> string)
    requires NoNewline(gateText(node.gateType))
    ensures CountNewlines(ShowNode(node, gateText)) == 0
  {
    var parts := PniTexts(node.input);
    forall k | 0 <= k < |parts|
      ensures NoNewline(parts[k])
    {
      var r := parts[k];
      forall j | 0 <= j < |r|
        ensures r[j] != '\n'
      {
        if 2 <= j < |r| - 1 {
          assert r[j] == r[2..|r| - 1][j - 2];
        }
      }
    }
    BracketedNoNewline(parts);
    var b := ShowInputs(node.input);
    assert NoNewline(" -> ");
    NoNewlineConcat(b, " -> ");
    NoNewlineConcat(b + " -> ", gateText(node.gateType));
    assert ShowNode(node, gateText) == b + " -> " + gateText(node.gateType);
    NoNewlineCount(ShowNode(node, gateText));
  }

  /** One newline per node. */
  lemma {:induction false} LinesCount(nodes: seq<PatternNode>, gateText: GateType -> string)
    requires forall t :: NoNewline(gateText(t))
    ensures CountNewlines(Lines(nodes, gateText)) == |nodes|
    decreases |nodes|
  {
    if nodes != [] {
      var line := ShowNode(nodes[0], gateText);
      ShowNodeNoNewline(nodes[0], gateText);
      LinesCount(nodes[1..], gateText);
      CountNewlinesAppend(line, "\n");
      CountNewlinesAppend(line + "\n", Lines(nodes[1..], gateText));
    }
  }

  /**
   * A header followed by the node lines has one line for the header and
   * one per node, provided gate types render on one line.
   */
  lemma DisplayLineCount(inputSize: nat, output: seq<nat>, nodes: seq<PatternNode>, gateText: GateType -> string)
    ensures (forall t :: NoNewline(gateText(t))) ==>
      CountNewlines(Header(inputSize, output) + Lines(nodes, gateText)) == |nodes| + 1
  {
    if forall t :: NoNewline(gateText(t)) {
      HeaderCount(inputSize, output);
      LinesCount(nodes, gateText);
      CountNewlinesAppend(Header(inputSize, output), Lines(nodes, gateText));
    }
  }

  /** The header is one line. */
  lemma HeaderCount(inputSize: nat, output: seq<nat>)
    ensures CountNewlines(Header(inputSize, output)) == 1
  {
    var a := "input size: " + NatToString(inputSize);
    var b := a + ", output node: ";
    var pre := b + ShowNats(output);
    assert NoNewline("input size: ") && NoNewline(NatToString(inputSize)) && NoNewline(", output node: ");
    ShowNatsNoNewline(output);
    NoNewlineConcat("input size: ", NatToString(inputSize));
    NoNewlineConcat(a, ", output node: ");
    NoNewlineConcat(b, ShowNats(output));
    NoNewlineCount(pre);
    CountNewlinesAppend(pre, "\n");
    assert Header(inputSize, output) == pre + "\n";
  }


  // Structure of a template.

  /** Every node input names a pattern input below `inputSize` or a node of the list. */
  predicate RefsInRange(nodes: seq<PatternNode>, inputSize: nat) {
    forall i, k :: 0 <= i < |nodes| && 0 <= k < |nodes[i].input| ==> InRange(nodes[i].input[k], inputSize, |nodes|)
  }

  predicate InRange(p: PniType, inputSize: nat, count: nat) {
    match p
    case Input(k) => k < inputSize
    case NodeOutput(j) => j < count
  }

  /** Every node type can be turned into a gate by `LogicGate::new` from its inputs. */
  predicate Buildable(nodes: seq<PatternNode>) {
    forall i :: 0 <= i < |nodes| ==>
      Constructible(nodes[i].gateType) && |nodes[i].input| >= KeptInputs(nodes[i].gateType)
  }

  /** The output list and every reference point inside the template. */
  predicate WellFormed(inputSize: nat, output: seq<nat>, nodes: seq<PatternNode>) {
    && RefsInRange(nodes, inputSize)
    && Buildable(nodes)
    && forall k :: 0 <= k < |output| ==> output[k] < |nodes|
  }

  /** Each node reads only nodes stored before it: the template has no feedback. */
  predicate FeedForward(nodes: seq<PatternNode>) {
    forall i, k :: 0 <= i < |nodes| && 0 <= k < |nodes[i].input| ==> Earlier(nodes[i].input[k], i)
  }

  predicate Earlier(p: PniType, i: nat) {
    p.NodeOutput? ==> p.n < i
  }

  /**
   * `add_node`, which src/pattern.rs does not define. From its call sites it
   * appends a node whose gate type is looked up by name and input count, and
   * returns that node's position. Both are assumptions of this model.
   */
  method AddNode(pattern: seq<PatternNode>, name: string, input: seq<PniType>)
    returns (extended: seq<PatternNode>, index: nat)
    requires Misc.KnownGate(name, |input|)
    ensures extended == pattern + [NewNode(Misc.GainGateType(name, |input|), input)]
    ensures index == |pattern| && extended[index].input == input
  {
    extended := pattern + [NewNode(Misc.GainGateType(name, |input|), input)];
    index := |pattern|;
  }

  // A reference evaluator for feed-forward templates. Nothing in the
  // repository evaluates a pattern; this exists to check the templates
  // against their own descriptions.

  /** The boolean a gate of type `t` computes, through `LogicGate::new`'s kept inputs. */
  function GateValue(t: GateType, bs: seq<bool>): bool
    requires Constructible(t) && |bs| >= KeptInputs(t)
  {
    match t
    case Not(_) => !bs[0]
    case And(_) => bs[0] && bs[1]
    case Or(_) => bs[0] || bs[1]
    case Xor(_) => bs[0] != bs[1]
    case NAnd(n) => if n == 2 then !(bs[0] && bs[1]) else !(bs[0] && bs[1] && bs[2])
  }

  /**
   * The value `GateValue` gives is what the gate `LogicGate::new` builds
   * writes, when the inputs it reads hold those values.
   */
  lemma GateValueAgrees(t: GateType, ids: seq<nat>, out: nat, s: seq<Signal>)
    requires Constructible(t) && |ids| >= KeptInputs(t) && out < |s|
    requires forall k :: 0 <= k < |ids| ==> ids[k] < |s| && Known(s[ids[k]])
    ensures Ready(New(t, ids, [out]), s)
    ensures GetUnchecked(Written(New(t, ids, [out]), s))
      == GateValue(t, seq(KeptInputs(t), k requires 0 <= k < KeptInputs(t) => GetUnchecked(s[ids[k]])))
  {
    var g := New(t, ids, [out]);
    assert GetInput(g) == ids[..KeptInputs(t)];
    assert IdsReady(GetInput(g), s);
  }

  function Operand(p: PniType, inputs: seq<bool>, prev: seq<bool>): bool
    requires InRange(p, |inputs|, |prev|)
  {
    match p
    case Input(k) => inputs[k]
    case NodeOutput(j) => prev[j]
  }

  /** A template whose nodes can all be evaluated in order from `n` inputs. */
  predicate Evaluable(nodes: seq<PatternNode>, n: nat) {
    && FeedForward(nodes)
    && Buildable(nodes)
    && forall i, k :: 0 <= i < |nodes| && 0 <= k < |nodes[i].input| ==> InRange(nodes[i].input[k], n, i)
  }

  /** The value of every node, in stored order. */
  function Evaluate(nodes: seq<PatternNode>, inputs: seq<bool>): (vals: seq<bool>)
    requires Evaluable(nodes, |inputs|)
    ensures |vals| == |nodes|
    decreases |nodes|
  {
    if nodes == [] then []
    else
      var init := nodes[..|nodes| - 1];
      var last := nodes[|nodes| - 1];
      assert forall i :: 0 <= i < |init| ==> init[i] == nodes[i];
      var prev := Evaluate(init, inputs);
      prev + [GateValue(last.gateType,
                        seq(|last.input|, k requires 0 <= k < |last.input| => Operand(last.input[k], inputs, prev)))]
  }

  /** A node's value depends only on the nodes before it. */
  lemma {:induction false} EvaluatePrefix(nodes: seq<PatternNode>, inputs: seq<bool>, m: nat)
    requires Evaluable(nodes, |inputs|) && m <= |nodes|
    ensures Evaluable(nodes[..m], |inputs|)
    ensures Evaluate(nodes[..m], inputs) == Evaluate(nodes, inputs)[..m]
    decreases |nodes|
  {
    assert forall i :: 0 <= i < m ==> nodes[..m][i] == nodes[i];
    if m < |nodes| {
      var init := nodes[..|nodes| - 1];
      assert forall i :: 0 <= i < |init| ==> init[i] == nodes[i];
      EvaluatePrefix(init, inputs, m);
      assert init[..m] == nodes[..m];
    } else {
      assert nodes[..m] == nodes;
    }
  }

  /** The value of node `i` is its gate applied to its operands, read from the values before it. */
  lemma EvaluateAt(nodes: seq<PatternNode>, inputs: seq<bool>, i: nat)
    requires Evaluable(nodes, |inputs|) && i < |nodes|
    ensures forall k :: 0 <= k < |nodes[i].input| ==> InRange(nodes[i].input[k], |inputs|, |Evaluate(nodes, inputs)[..i]|)
    ensures Evaluate(nodes, inputs)[i]
      == GateValue(nodes[i].gateType,
                   seq(|nodes[i].input|, k requires 0 <= k < |nodes[i].input| =>
                     Operand(nodes[i].input[k], inputs, Evaluate(nodes, inputs)[..i])))
  {
    EvaluatePrefix(nodes, inputs, i + 1);
    EvaluatePrefix(nodes, inputs, i);
    var pre := nodes[..i + 1];
    assert pre[..|pre| - 1] == nodes[..i];
    assert pre[|pre| - 1] == nodes[i];
    assert Evaluate(nodes, inputs)[..i + 1][i] == Evaluate(nodes, inputs)[i];
    assert Evaluate(nodes, inputs)[..i + 1][..i] == Evaluate(nodes, inputs)[..i];
  }
}
