# A verified model of the `circuit` logic simulator

The repository is a small logic-circuit simulator written in Rust. It holds
several revisions side by side that do not build together. This project
models each revision in its own Dafny module and proves what each one
computes.

- **Generic-signal pipeline** (`src/signal.rs`, `src/gate.rs`,
  `src/circuit.rs`, `src/component.rs`, `src/lib.rs`): modules `Signals`,
  `Gates`, `Circuits`, `Components` and `Lib`, plus the helper module `Bits`.
  - A signal is `Option<bool>`, unknown until written.
  - A circuit owns an append-only signal store (an `array<Signal>`), an
    ordered gate list and the counter `next_valid_id`. The counter always
    equals the length of the store.
  - `add_gate` hands out that counter as the new gate's output id.
    `add_xor_gate` and `HalfAdder::build` compose gates, and their boolean
    results are proved.
  - `execute` copies the inputs over a prefix of the store, then runs every
    gate once, in stored order, in place. It is proved against the reference
    function `RunGates`.
  - Reading an unknown signal panics, so "every operand is known" is a
    precondition. The wiring discipline `Feeds` (each gate reads only inputs
    or earlier gates' outputs) discharges it for whole circuits.
  - `test_circuit` enumerates all 2^n input rows and is proved row by row
    against `TestRows`. Its unit test is proved to print the xor truth table.
- **Fixed-arity gates** (`src/gate/mod.rs`, `src/gate/basic.rs`,
  `src/node.rs`): modules `ArityGates` and `Nodes`.
  - One variant per arity, with `Not1` … `NAnd3`.
  - The constructor keeps a prefix of the given ids. `get_type`, `get_input`
    and `get_output` rebuild the gate.
  - In-place `execute`, including NAND of two and three inputs.
  - Proved to agree with the first revision on the common gates.
  - `Node` dispatches to the gate for its `Gate` variant only.
- **Pattern templates** (`src/pattern.rs`, `src/combinational.rs`,
  `src/sequential.rs`, `src/msic.rs`): modules `Patterns`, `Combinational`,
  `Sequential` and `Misc`, plus the helper module `Text`.
  - A `Pattern` is a class with its setters; its `Display` text is proved to
    have one line per node plus a header.
  - The gate-name lookup `gain_gate_type` is proved inverse to naming.
  - The adder and flip-flop builders are methods that grow a node list with
    `add_node` and register the template in a map.
  - The templates are proved:
    - well formed;
    - feed-forward for the adders, with feedback for the flip-flops;
    - for the adders, arithmetically correct by a reference evaluator: the
      full adder meets its description "c0 + a + b = c1 s", and the half
      adder, whose description is empty, gives a + b = 2c + s.
- **Truth tables** (`src/table.rs`): module `Table`.
  - The row layout `prepare_print` builds: row `i` holds the binary digits
    of `i`, most significant first. Every row number appears exactly once.
  - The size check of `KarnaughMap::new`.
- **Earlier prototype** (`src/main.rs`): module `Prototype`.
  - A circuit with fixed input and output index tables, and a NOT gate that
    propagates unknown values.
  - `new` starts `next_valid_id` one past the end of the store and
    `add_gate` never grows the store. So every gate added with `add_gate` is
    proved never to be executable; only `add_gate_to_output` gates run.
- **Component bookkeeping** (`src/component/info.rs`): module `Info`, the
  class `ComponentInfo` with its getters and setters.

The first revision's `Circuit<S>`, `LogicGate::execute<S>` and
`test_circuit<S>` are generic over any `S: BinarySignal`; the model fixes
`S` to `Signal`, the only implementation the repository has.

Panics in the source (`unwrap`, `unreachable!`, `todo!`, indexing out of
range, the `u32` overflow of `2u32.pow`) are preconditions, never modelled
behaviour. Printing is replaced by returning the data that would be printed.

## Model

| member | source | states |
|---|---|---|
| Signals.Default | src/signal.rs:21-25 | the default signal is unknown |
| Signals.FromBool | src/signal.rs:16-18 | `from_bool` gives a known signal |
| Signals.GetUnchecked | src/signal.rs:12-14 | callable only on a known signal (the unwrap panics otherwise); the result turned back by `from_bool` is the signal itself |
| Signals.GetUncheckedFromBool | src/signal.rs:12-18 | `get_unchecked(from_bool(b)) == b` |
| Signals.Show | src/signal.rs:26-33 | one character; "_" exactly for unknown, "1" for true, "0" for false |
| Signals.ShowInjective | src/signal.rs:26-33 | distinct signals render differently |
| Bits.DigitsAt | src/lib.rs:31-36 | entry n-1-j of a row's digit string is bit j of the row number |
| Bits.ValueOfDigits | src/table.rs:26-30 | the digit string of a number below 2^n reads back as that number |
| Bits.DigitsOfValue | src/table.rs:26-30 | every digit string is the row of exactly one number below 2^n |
| Bits.ShiftStep | src/lib.rs:33-34 | one more halving of `temp` is one more shift |
| Gates.New | src/gate.rs:19-25 | the kind and both id lists are stored unchanged |
| Gates.Semantics | src/gate.rs:46-52 | the xor formula (¬l ∧ r) ∨ (l ∧ ¬r) is l ≠ r |
| Gates.Apply | src/gate.rs:27-54 | the output slot becomes known with the gate's boolean function of its operands, every other slot is unchanged, length kept |
| Gates.Execute | src/gate.rs:27-54 | in-place execution leaves exactly the store `Apply` describes; requires ids in range and known operands |
| Circuits.Overwrite | src/circuit.rs:46-48 | the first \|input\| slots hold the inputs, the rest is unchanged |
| Circuits.RunGates | src/circuit.rs:49-51 | running the gates keeps the store length |
| Circuits.RunGatesAppend | src/circuit.rs:49-51 | running a concatenation of gate lists is running one list then the other, and runs cleanly exactly when both do |
| Circuits.FeedsRunsClean | src/circuit.rs:49-51 | a gate list wired to read only known slots or earlier outputs runs without panicking |
| Circuits.Circuit.constructor | src/circuit.rs:16-25 | n unknown signals, no gates, counter n |
| Circuits.Circuit.AddGate | src/circuit.rs:27-33 | returns the old counter, the counter grows by one, one gate over the given ids and one unknown signal are appended; counter == store length is kept |
| Circuits.Circuit.AddXorGate | src/circuit.rs:36-43 | appends the five gates `XorGates(start)` over slots 0 and 1 whatever the argument, five unknown signals, returns start+4 |
| Circuits.Circuit.Execute | src/circuit.rs:45-52 | the store becomes `RunGates` over the store with its input prefix overwritten |
| Circuits.Circuit.GetSignal | src/circuit.rs:54-56 | returns slot `index` and changes nothing |
| Circuits.XorGatesOutput | src/circuit.rs:36-43 | with known a, b in slots 0 and 1, the xor gates run cleanly and leave a ≠ b in the returned id |
| Circuits.XorSteps | src/circuit.rs:38-42 | the five intermediate stores: ¬a, ¬b, a ∧ ¬b, b ∧ ¬a, then a ≠ b |
| Circuits.RunFive | src/circuit.rs:49-51 | five gates, each ready on the store the previous one left, run cleanly to the last store |
| Circuits.Step | src/circuit.rs:49-51 | running g then the rest is running the list [g] + rest |
| Components.BuildHalfAdder | src/component.rs:12-20 | two consecutive fresh ids starting at the old counter; an xor and an and gate over the input ids and two unknown signals are appended; the counter invariant is kept |
| Components.HalfAdderSteps | src/component.rs:17-18 | the xor gate is ready and writes a xor b; the and gate is then ready and writes a ∧ b, leaving the sum slot alone |
| Components.RunTwo | src/circuit.rs:49-51 | two gates, the second ready on the store the first left, run cleanly to the last store |
| Components.HalfAdderOutputs | src/component.rs:17-18 | with known a, b at the input ids, the first output holds a xor b and the second a ∧ b |
| Lib.BuildSignalVec | src/lib.rs:11-22 | same length and order, 0 becomes false and 1 true; other values are excluded by precondition |
| Lib.RowInput | src/lib.rs:31-36 | the row vector has n known signals |
| Lib.WriteDigits | src/lib.rs:31-36 | the inner loop leaves the binary digits of i, most significant at index 0 |
| Lib.TestRows | src/lib.rs:30-42 | one row per execution |
| Lib.TestRowsAt | src/lib.rs:30-42 | row i holds the digits of i and the chosen signals as they stand after the i+1-th execution |
| Lib.StateAfter | src/lib.rs:30-37 | the store after the first rows keeps its length |
| Lib.StateAfterNext | src/lib.rs:35-37 | each row overwrites the input prefix with its digits and runs every gate once |
| Lib.TestCircuit | src/lib.rs:23-43 | exactly 2^n rows equal to `TestRows`, and the final store is the one after 2^n executions |
| Lib.RunRow | src/lib.rs:31-41 | one row: fill the vector, execute, read the chosen (id, signal) pairs |
| Lib.XorGatesFeed | src/circuit.rs:38-42 | the xor gates read only slots 0, 1 and earlier outputs |
| Lib.XorOfDigits | src/lib.rs:35-37 | after a row with digits of i, the xor gates' output is the xor of the two digits |
| Lib.XorRowOutput | src/lib.rs:30-37 | after row i, however the store started, the xor output holds the xor of i's digits |
| Lib.ObserveOne | src/lib.rs:38-40 | reading one output id gives the single pair (id, signal) |
| Lib.XorTestable | src/lib.rs:52-57 | the 2-input xor circuit satisfies every precondition of the enumeration |
| Lib.XorRowAt | src/lib.rs:30-41 | row i of the xor circuit's enumeration holds the digits of i and (6, their xor), from any starting store |
| Lib.XorRows | src/lib.rs:57 | enumerating the xor circuit gives four rows 00, 01, 10, 11, each with output id 6 holding the xor of its digits |
| Lib.XorTest | src/lib.rs:50-60 | the unit test yields the xor truth table |
| ArityGates.New | src/gate/basic.rs:14-37 | keeps the first one (not), two (and, or, xor) or n (nand n) input ids and the first output id; nand only for 2 or 3 |
| ArityGates.GetInput | src/gate/basic.rs:51-60 | the variant's stored input array: one id for not, three for the three-input nand, two otherwise |
| ArityGates.GetOutput | src/gate/basic.rs:62-70 | the single entry of the variant's output array |
| ArityGates.GetType | src/gate/basic.rs:39-49 | the reported count is the variant's real number of inputs |
| ArityGates.TypeRoundTrip | src/gate/basic.rs:39-49 | `get_type(new(t, …)) == t` exactly when t declares the count its variant holds |
| ArityGates.NewFromAccessors | src/gate/basic.rs:14-70 | rebuilding a gate from `get_type`, `get_input` and `get_output` gives the same gate |
| ArityGates.SignalNot | src/gate/basic.rs:78 | on a known operand, a known negation |
| ArityGates.SignalAnd | src/gate/basic.rs:81 | on known operands, a known conjunction |
| ArityGates.SignalOr | src/gate/basic.rs:84 | on known operands, a known disjunction |
| ArityGates.SignalXor | src/gate/basic.rs:87 | on known operands, a known l ≠ r |
| ArityGates.Written | src/gate/basic.rs:89-97 | the written signal is known; NAnd2 writes ¬(a ∧ b) and NAnd3 writes ¬(a ∧ b ∧ c) |
| ArityGates.Apply | src/gate/basic.rs:72-99 | only the output slot changes, and it receives `Written` |
| ArityGates.Execute | src/gate/basic.rs:72-99 | in-place execution leaves exactly the store `Apply` describes |
| ArityGates.AgreesWithRev1 | src/gate/basic.rs:77-88 | Not1, And2, Or2 and Xor2 execute exactly like the first-revision gate of the same kind over the same ids |
| Nodes.GetType | src/node.rs:31-36 | gate nodes only; the type's count is the node's input count, and type, inputs and output rebuild the gate |
| Nodes.GetInput | src/node.rs:54-59 | gate nodes only; one to three input ids |
| Nodes.GetOutput | src/node.rs:38-43 | gate nodes only; a one-element list holding the gate's output id |
| Nodes.Execute | src/node.rs:13-20 | gate nodes only; a known signal, the one the gate writes to its output slot |
| Nodes.ExecuteMut | src/node.rs:22-29 | gate nodes only; the output slot receives what `execute` returns and nothing else changes |
| Misc.GainGateType | src/msic.rs:4-13 | defined for and/or/nand with any count, xor with 2, not with 1; the result has the given name and count |
| Misc.GainGateTypeInverse | src/msic.rs:4-13 | a type's name and count are accepted exactly when it is not xor/not with another count, and then map back to the type |
| Misc.GainGateTypeInjective | src/msic.rs:4-13 | distinct accepted pairs give distinct types |
| Misc.ChooseSignals | src/msic.rs:19-21 | one signal per index, in order, each `signals[i]`; every index in range |
| Misc.ChooseSignalsAppend | src/msic.rs:19-21 | choosing by concatenated index lists concatenates the choices |
| Misc.UsizeSignalVec | src/msic.rs:15-17 | the length is kept |
| Text.NatToString | src/pattern.rs:63-64 | decimal digits, at least one, no leading zero |
| Text.ParseNatToString | src/pattern.rs:63-64 | the decimal rendering reads back as its number |
| Text.NatToStringInjective | src/pattern.rs:63-64 | distinct numbers render differently |
| Text.Bracketed | src/pattern.rs:70 | a `Vec` renders between "[" and "]" |
| Text.JoinFields | src/pattern.rs:70 | elements joined by ", " split back into the same elements, in order, when none holds a comma |
| Text.BracketedRoundTrip | src/pattern.rs:70 | a bracketed `Vec` of non-empty, comma-free elements reads back as those elements, in order |
| Text.ShowNatsNoNewline | src/pattern.rs:76 | the output list renders on one line |
| Patterns.NewNode | src/pattern.rs:55-57 | the gate type and input list are stored unchanged |
| Patterns.PairsToMap | src/pattern.rs:31-32 | a name is a key exactly when some pair carries it |
| Patterns.PairsToMapLast | src/pattern.rs:31-32 | a name maps to the index of its last pair |
| Patterns.Positions | src/combinational.rs:41 | each output name is paired with its position (an assumption, see below) |
| Patterns.PositionsMap | src/combinational.rs:41 | with distinct names, each name maps to its own position |
| Patterns.Pattern.constructor | src/pattern.rs:16-23 | input size, outputs and nodes stored unchanged; no port names; empty description |
| Patterns.Pattern.SetName | src/pattern.rs:25-35 | port names become the input names and the name→index map of the pairs; nothing else changes |
| Patterns.Pattern.SetDescription | src/pattern.rs:37-40 | only the description changes |
| Patterns.ShowNode | src/pattern.rs:68-72 | a bracketed input list, then "] -> " and the gate type's text at the end |
| Patterns.ShowPniNoComma | src/pattern.rs:60-67 | a rendered node input is non-empty and holds no comma |
| Patterns.ParseAllShown | src/pattern.rs:60-67 | the node inputs rendered one by one read back as the same list |
| Patterns.ShowInputsRoundTrip | src/pattern.rs:70 | the `Debug` rendering of a node's input list reads back as that list, in order |
| Patterns.ShowNodeInputs | src/pattern.rs:68-72 | the text before " -> " and the gate type reads back as the node's inputs, in order |
| Patterns.ShowPni | src/pattern.rs:60-67 | "I(" or "N(" by variant, decimal digits, ")" |
| Patterns.ShowPniRoundTrip | src/pattern.rs:60-67 | the rendering parses back to the same node input |
| Patterns.CountNewlinesAppend | src/pattern.rs:74-81 | newline counts add over concatenation |
| Patterns.NoNewlineCount | src/pattern.rs:74-81 | a string without newlines counts none |
| Patterns.ShowNodeNoNewline | src/pattern.rs:68-72 | a node renders on one line when its gate type does |
| Patterns.LinesCount | src/pattern.rs:77-79 | one newline per node |
| Patterns.LinesOne | src/pattern.rs:77-79 | one node gives its rendering followed by a newline |
| Patterns.LinesAppend | src/pattern.rs:77-79 | the lines of two consecutive node lists follow each other |
| Patterns.LinesAt | src/pattern.rs:77-79 | node k's line comes after the lines of the nodes before it and before those after it, so the lines keep the stored order |
| Patterns.HeaderCount | src/pattern.rs:76 | the header is exactly one line |
| Patterns.Pattern.Display | src/pattern.rs:74-81 | the header "input size: n, output node: [..]" with the size and the output list, then the node lines (in stored order, by LinesAt); one line for the header plus one per node when gate types render on one line |
| Patterns.DisplayLineCount | src/pattern.rs:74-81 | a header followed by the node lines has one newline for the header plus one per node, when gate types render on one line |
| Patterns.AddNode | src/sequential.rs:147-154 | appends the node named by `gain_gate_type` and returns its position (an assumption, see below) |
| Patterns.GateValueAgrees | src/gate/basic.rs:14-99 | the reference evaluator's gate value is what the gate built by `new` writes |
| Patterns.Evaluate | src/combinational.rs:11-35 | one value per node |
| Patterns.EvaluatePrefix | src/combinational.rs:11-35 | a node's value depends only on the nodes before it |
| Patterns.EvaluateAt | src/combinational.rs:11-35 | each node's value is its gate applied to its operands, read from the nodes before it |
| Combinational.BuildFullAdder | src/combinational.rs:7-45 | registers under "full_adder", replacing only that key: 3 inputs, outputs [1, 4], the five nodes, port names, description "c0 + a + b = c1 s" |
| Combinational.BuildHalfAdder | src/combinational.rs:46-61 | registers under "half_adder", replacing only that key: 2 inputs, outputs [0, 1], [xor(I0, I1), and(I0, I1)], port names, empty description |
| Combinational.AddersWellFormed | src/combinational.rs:9-55 | references in range, outputs naming nodes, nodes buildable, feed-forward |
| Combinational.FullAdderWellFormed | src/combinational.rs:9-40 | the full adder alone is well formed, feed-forward and evaluable from three inputs |
| Combinational.FullAdderSum | src/combinational.rs:11-42 | node 1 is c0 ⊕ a ⊕ b, node 4 the majority, and c0 + a + b = 2·c1 + s |
| Combinational.HalfAdderSum | src/combinational.rs:48-55 | node 0 is a ⊕ b, node 1 is a ∧ b, and a + b = 2·c + s |
| Sequential.BuildJkff | src/sequential.rs:6-39 | registers under "jkff": 3 inputs, outputs [2, 3], four NAND nodes whose 3rd and 4th positions are the reserved nq and q |
| Sequential.BuildTff | src/sequential.rs:40-73 | registers under "tff": 2 inputs, outputs [2, 3], the four NAND nodes, description |
| Sequential.BuildDff | src/sequential.rs:74-107 | registers under "dff": 2 inputs, outputs [2, 3], the four NAND nodes, description |
| Sequential.BuildRsff | src/sequential.rs:108-143 | registers under "rsff": 3 inputs, outputs [2, 3], the four NAND nodes, description |
| Sequential.BuildBasicRsff | src/sequential.rs:145-162 | registers under "brsff": 2 inputs, outputs [0, 1] taken from `add_node`, the two NAND nodes, empty description |
| Sequential.FlipFlopsWellFormed | src/sequential.rs:8-159 | every template has references below its input size and node count and only buildable NAND nodes |
| Sequential.NandTemplateWellFormed | src/sequential.rs:8-159 | a template of 2- and 3-input NAND nodes with references and outputs in range is well formed |
| Sequential.FlipFlopsFeedBack | src/sequential.rs:10-14 | jkff and tff start with a 3-input NAND reading q (node 3); jkff, tff, dff and rsff are not feed-forward |
| Sequential.BrsffCrossCoupled | src/sequential.rs:147-154 | brsff is [nand(I0, N1), nand(I1, N0)], cross-coupled |
| Table.InputSize | src/table.rs:17 | the stored input width |
| Table.OutputSize | src/table.rs:18 | the stored output width |
| Table.New | src/table.rs:10-18 | the getters return the widths it was built with |
| Table.TableRow | src/table.rs:25 | a row has input_size + output_size cells |
| Table.TableRows | src/table.rs:20-23 | 2^input_size rows |
| Table.FillDigits | src/table.rs:26-30 | the inner loop writes the digits of i, most significant first, and leaves the output cells alone |
| Table.PreparePrint | src/table.rs:19-35 | the rows built are exactly `TableRows`; the width must stay below 32 |
| Table.RowEntries | src/table.rs:26-31 | entry n-1-j of row i is bit j of i, and output cells are empty |
| Table.RowNumber | src/table.rs:26-30 | the input cells of row i read back in binary as i |
| Table.RowsDistinct | src/table.rs:23-31 | distinct row numbers give distinct rows |
| Table.NewKarnaughMap | src/table.rs:64-77 | an error, with its message, exactly for fewer than 3 inputs, `Ok([])` for more than 5 |
| Prototype.Negate | src/main.rs:77 | unknown stays unknown; a known value is negated |
| Prototype.WiredGate.GetOutput | src/main.rs:89-94 | the gate's output id |
| Prototype.WiredGate.SetOutput | src/main.rs:82-94 | after `set_output(o)`, `get_output() == o` and the input is unchanged |
| Prototype.WiredGate.Apply | src/main.rs:73-80 | only `ctx[output]` changes, to the negated input |
| Prototype.WiredGate.Execute | src/main.rs:73-80 | in-place execution leaves exactly the store `Apply` describes |
| Prototype.RunWired | src/main.rs:51-53 | running the gates keeps the store length |
| Prototype.CopyInputs | src/main.rs:48-50 | copying inputs keeps the store length |
| Prototype.Iota | src/main.rs:17 | the input table holds 0 .. n-1 |
| Prototype.CopyIota | src/main.rs:48-50 | with `new`'s input table, exactly the first n slots receive the same-index inputs |
| Prototype.Circuit.constructor | src/main.rs:12-29 | 2(i+o) unknown signals; input k is id k; output k is id 2i+k; counter 2(i+o)+1 |
| Prototype.Circuit.AddGate | src/main.rs:31-35 | the gate is rewired to the old counter, which grows by one; the store never grows, so the gate list is never runnable afterwards |
| Prototype.Circuit.AddGateToOutput | src/main.rs:37-41 | the gate is rewired to the output id its own output number selects; the counter is unchanged |
| Prototype.Circuit.GetInput | src/main.rs:43-45 | the signal of input `index` |
| Prototype.Circuit.GetOutput | src/main.rs:59-61 | the signal of output `index` |
| Prototype.Circuit.Execute | src/main.rs:47-57 | the store becomes `RunWired` over the store with `input[i]` copied into each input id i; returns the output-id signals in order |
| Prototype.NotGateTest | src/main.rs:105-112 | the test's output is a single false signal |
| Info.ComponentInfo.New | src/component/info.rs:8-10 | stores the id and both lists |
| Info.ComponentInfo.Default | src/component/info.rs:19-23 | id 0, no inputs, no outputs |
| Info.ComponentInfo.GetId | src/component/info.rs:11 | the stored id |
| Info.ComponentInfo.GetInput | src/component/info.rs:13 | the stored input list |
| Info.ComponentInfo.GetOutput | src/component/info.rs:15 | the stored output list |
| Info.ComponentInfo.SetId | src/component/info.rs:11-12 | `get_id` returns the new id; the lists are unchanged |
| Info.ComponentInfo.SetInput | src/component/info.rs:13-14 | `get_input` returns the new list; id and outputs are unchanged |
| Info.ComponentInfo.SetOutput | src/component/info.rs:15-16 | `get_output` returns the new list; id and inputs are unchanged |

## Left out

- Printing is not modelled: `TruthTable::print` and `print_value`, the `println!` in `test_circuit`, `print_output`, `main`, and the test's `println!` calls. The data that would be printed is returned instead.
- serde derives (persistence) are not modelled.
- HashMap iteration order in a pattern's port map is not modelled; a Dafny `map` has no order.
- `Display for GateType` is not shown in the source; `Patterns.Pattern.Display` takes it as the parameter `gateText`.
- src/app/ (the pest-driven parser and the egui UI), src/component/combinator.rs (logic commented out) and src/component/mod.rs (a bare trait) are not part of this model.
- Patterns.AddNode: `add_node` is not defined in the source. This contract is an assumption taken from its call sites: it appends a node whose type `gain_gate_type` gives from the name and input count, and returns that node's position.
- `get_patterns_mut` is not defined in the source. The builders take the pattern registry as a `map<string, Pattern>` and return it with the one key inserted.
- Patterns.Positions: the template builders call `set_name` with bare output names where the method takes `(name, index)` pairs. Pairing each name with its position is an assumption.
- Misc.UsizeSignalVec: `Signal::from_usize` is not shown and is a parameter, so the contract states the length only.
- The signal methods `.not`, `.and`, `.or` and `.xor` of the fixed-arity revision are not shown. They get the two-valued, known-operands-only meaning of src/gate.rs. Unknown operands are excluded by precondition and not propagated.
- Nodes.Execute: the gate method returning a signal is not shown; it is taken to be the value src/gate/basic.rs's `execute` writes.
- Nodes.ExecuteMut: the gate's `execute_mut` is not shown; it is taken to be src/gate/basic.rs's in-place `execute`.
- `Node::set_input` delegates to a gate method that is not shown, so it is not modelled.
- `Node` operations on `InBuild` and `Custom` reach `todo!()`/`unreachable!()`; every `Nodes` member requires a gate node.
- Pattern capture, instantiation and evaluation with feedback appear in no source file. `Patterns.Evaluate` is a reference evaluator for feed-forward templates only. It checks the adder templates against their descriptions and is not source behaviour.
- Flip-flop behaviour (such as "Qn+1 = D") is not claimed: it would need an evaluator with feedback that the source does not have. Only the templates' structure is proved.
- Table.NewKarnaughMap: requires an input size outside 3..5, because those sizes reach `todo!()`.
- Machine integer widths are not modelled. The row counts of `test_circuit` and `prepare_print` are `2u32.pow`, so the width is required to stay below 32.
- Lib.Observe: no contract of its own. The rows are stated through `Lib.TestRowsAt` and `Lib.ObserveOne`.
- The prototype's `Signal(Option<bool>)` in src/main.rs has the same shape as src/signal.rs's, so `Signals.Signal` is reused for it.
- Lib.TestRows: its own contract states the length only; its rows are stated by `Lib.TestRowsAt`.
- Lib.StateAfter: its own contract states the length only; each step is stated by `Lib.StateAfterNext` and the xor output by `Lib.XorRowOutput`.
- Prototype.RunWired: its own contract states the length only; `Prototype.Circuit.Execute` is proved against it.
- Circuits.RunGates: its own contract states the length only; `Circuits.RunGatesAppend`, `Circuits.Step` and `Circuits.Circuit.Execute` relate it to execution.
