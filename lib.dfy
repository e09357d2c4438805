/**
 * src/lib.rs: turning a 0/1 vector into signals, and `test_circuit`, which
 * runs a circuit on every input vector of a given width and reads back
 * chosen signals.
 */
module Lib {
  import opened Signals
  import opened Gates
  import opened Circuits
  import opened Bits

  /**
   * `build_signal_vec`: same length and order, 0 becomes false and 1 true
   * (any other value reaches `unreachable!`).
   */
  method BuildSignalVec(vec: seq<nat>) returns (res: seq<Signal>)
    requires forall k :: 0 <= k < |vec| ==> vec[k] <= 1
    ensures |res| == |vec|
    ensures forall k :: 0 <= k < |vec| ==> Known(res[k]) && GetUnchecked(res[k]) == (vec[k] == 1)
  {
    res := [];
    for i := 0 to |vec|
      invariant |res| == i
      invariant forall k :: 0 <= k < i ==> Known(res[k]) && GetUnchecked(res[k]) == (vec[k] == 1)
    {
      var signal := if vec[i] == 0 then FromBool(false) else FromBool(true);
      res := res + [signal];
    }
  }

  /** The input vector of row `i`: its `n` binary digits, most significant first. */
  function RowInput(i: nat, n: nat): (r: seq<Signal>)
    ensures |r| == n
    ensures forall k :: 0 <= k < n ==> Known(r[k])
  {
    seq(n, k requires 0 <= k < n => FromBool(Digits(i, n)[k]))
  }

  /** What `test_circuit` prints for one row: the input vector and the chosen (id, signal) pairs. */
  datatype Row = Row(input: seq<Signal>, output: seq<(nat, Signal)>)

  function Observe(s: seq<Signal>, outs: seq<nat>): (r: seq<(nat, Signal)>)
    requires forall k :: 0 <= k < |outs| ==> outs[k] < |s|
  {
    seq(|outs|, k requires 0 <= k < |outs| => (outs[k], s[outs[k]]))
  }

  /** Conditions under which every row of `test_circuit` executes without panicking. */
  predicate Testable(gs: seq<LogicGate>, len: nat, n: nat) {
    n <= len && Feeds(gs, Below(n)) && IdsIn(gs, len)
  }

  /**
   * The store after the first `rows` rows: each row overwrites the input
   * prefix with its digits and runs every gate once; nothing else is reset
   * between rows.
   */
  function StateAfter(gs: seq<LogicGate>, s0: seq<Signal>, n: nat, rows: nat): (s: seq<Signal>)
    requires Testable(gs, |s0|, n)
    ensures |s| == |s0|
    decreases rows
  {
    if rows == 0 then s0
    else
      var seeded := Overwrite(StateAfter(gs, s0, n, rows - 1), RowInput(rows - 1, n));
      FeedsRunsClean(gs, Below(n), seeded);
      RunGates(gs, seeded)
  }

  /**
   * The inner loop of `test_circuit`: peel the low bit off `temp` and store
   * it from the right-hand end of the vector leftwards.
   */
  method WriteDigits(inputVec: array<Signal>, i: nat)
    modifies inputVec
    ensures inputVec[..] == RowInput(i, inputVec.Length)
  {
    var inputNum := inputVec.Length;
    var temp := i;
    for j := 0 to inputNum
      invariant temp == Shift(i, j)
      invariant forall k :: inputNum - j <= k < inputNum ==> inputVec[k] == FromBool(Bit(i, inputNum - 1 - k))
    {
      var v := temp % 2 == 1;
      ShiftStep(i, j);
      temp := temp / 2;
      inputVec[inputNum - j - 1] := FromBool(v);
    }
    forall k | 0 <= k < inputNum
      ensures inputVec[k] == RowInput(i, inputNum)[k]
    {
      DigitsAt(i, inputNum, inputNum - 1 - k);
    }
  }

  /** The first `count` lines `test_circuit` produces. */
  function TestRows(gs: seq<LogicGate>, s0: seq<Signal>, n: nat, outs: seq<nat>, count: nat): (rows: seq<Row>)
    requires Testable(gs, |s0|, n)
    requires forall k :: 0 <= k < |outs| ==> outs[k] < |s0|
    ensures |rows| == count
  {
    if count == 0 then []
    else TestRows(gs, s0, n, outs, count - 1)
         + [Row(RowInput(count - 1, n), Observe(StateAfter(gs, s0, n, count), outs))]
  }

  /**
   * Row `i` holds the digits of `i` (most significant first) and the chosen
   * signals as they stand once that row has executed.
   */
  lemma {:induction false} TestRowsAt(gs: seq<LogicGate>, s0: seq<Signal>, n: nat, outs: seq<nat>, count: nat, i: nat)
    requires Testable(gs, |s0|, n)
    requires forall k :: 0 <= k < |outs| ==> outs[k] < |s0|
    requires i < count
    ensures TestRows(gs, s0, n, outs, count)[i] == Row(RowInput(i, n), Observe(StateAfter(gs, s0, n, i + 1), outs))
  {
    if i < count - 1 {
      TestRowsAt(gs, s0, n, outs, count - 1, i);
    }
  }

  /**
   * `test_circuit`: 2^n executions (the count is a `u32`, so n < 32); row
   * `i` carries the digits of `i`, executes the circuit, then reads the
   * chosen signals. The printed lines are returned instead.
   */
  method TestCircuit(circuit: Circuit, inputNum: nat, outputIndexes: seq<nat>) returns (rows: seq<Row>)
    requires inputNum < 32
    requires Testable(circuit.circuitGraph, circuit.signalMap.Length, inputNum)
    requires forall k :: 0 <= k < |outputIndexes| ==> outputIndexes[k] < circuit.signalMap.Length
    modifies circuit.signalMap
    ensures rows == TestRows(circuit.circuitGraph, old(circuit.signalMap[..]), inputNum, outputIndexes, Pow2(inputNum))
    ensures circuit.signalMap[..] == StateAfter(circuit.circuitGraph, old(circuit.signalMap[..]), inputNum, Pow2(inputNum))
  {
    ghost var s0 := circuit.signalMap[..];
    var gs := circuit.circuitGraph;
    var inputVec := new Signal[inputNum](_ => Default());
    var n := Pow2(inputNum);
    rows := [];
    for i := 0 to n
      invariant rows == TestRows(gs, s0, inputNum, outputIndexes, i)
      invariant circuit.signalMap[..] == StateAfter(gs, s0, inputNum, i)
    {
      var row := RunRow(circuit, s0, inputVec, i, outputIndexes);
      rows := rows + [row];
    }
  }

  /** One row of `test_circuit`: fill the input vector, execute, read the chosen signals. */
  method RunRow(circuit: Circuit, ghost s0: seq<Signal>, inputVec: array<Signal>, i: nat, outputIndexes: seq<nat>)
    returns (row: Row)
    requires inputVec != circuit.signalMap && |s0| == circuit.signalMap.Length
    requires Testable(circuit.circuitGraph, |s0|, inputVec.Length)
    requires forall k :: 0 <= k < |outputIndexes| ==> outputIndexes[k] < |s0|
    requires circuit.signalMap[..] == StateAfter(circuit.circuitGraph, s0, inputVec.Length, i)
    modifies circuit.signalMap, inputVec
    ensures circuit.signalMap[..] == StateAfter(circuit.circuitGraph, s0, inputVec.Length, i + 1)
    ensures row == Row(RowInput(i, inputVec.Length),
                       Observe(StateAfter(circuit.circuitGraph, s0, inputVec.Length, i + 1), outputIndexes))
  {
    var inputNum := inputVec.Length;
    WriteDigits(inputVec, i);
    ghost var seeded := Overwrite(circuit.signalMap[..], inputVec[..]);
    FeedsRunsClean(circuit.circuitGraph, Below(inputNum), seeded);
    circuit.Execute(inputVec[..]);
    var store := circuit.signalMap;
    var output := seq(|outputIndexes|, k requires 0 <= k < |outputIndexes| reads store =>
      (outputIndexes[k], store[outputIndexes[k]]));
    row := Row(inputVec[..], output);
  }

  /** `add_xor_gate`'s gates read only slots 0 and 1 and each other's outputs. */
  lemma XorGatesFeed(n: nat, known: set<nat>)
    requires 0 in known && 1 in known
    ensures Feeds(XorGates(n), known)
  {
    var gs := XorGates(n);
    assert Feeds(gs[1..][1..][1..][1..], known + {n} + {n + 1} + {n + 2} + {n + 3});
    assert Feeds(gs[1..][1..][1..], known + {n} + {n + 1} + {n + 2});
    assert Feeds(gs[1..][1..], known + {n} + {n + 1});
    assert Feeds(gs[1..], known + {n});
  }

  /** The 2-input circuit holding `add_xor_gate`'s gates can be enumerated without panicking. */
  lemma XorTestable()
    ensures Testable(XorGates(2), 7, 2)
  {
    XorGatesFeed(2, Below(2));
    assert IdsIn(XorGates(2), 7);
  }

  /**
   * The unit test of src/lib.rs: a 2-input circuit holding `add_xor_gate`,
   * executed once on [0, 1] and then enumerated. Its four rows are 00, 01,
   * 10, 11 and the chosen output (id 6) is the xor of each row's digits.
   */
  method XorTest() returns (rows: seq<Row>)
    ensures |rows| == 4
    ensures forall i :: 0 <= i < 4 ==> rows[i].input == RowInput(i, 2)
    ensures forall i :: 0 <= i < 4 ==>
      rows[i].output == [(6, FromBool(Digits(i, 2)[0] != Digits(i, 2)[1]))]
  {
    var circuit := new Circuit(2);
    var out := circuit.AddXorGate([0, 1]);
    assert circuit.circuitGraph == XorGates(2);
    var v := BuildSignalVec([0, 1]);
    XorTestable();
    FeedsRunsClean(circuit.circuitGraph, Below(2), Overwrite(circuit.signalMap[..], v));
    circuit.Execute(v);
    rows := XorRows(circuit, out);
  }

  /** The enumeration part of `XorTest`, from whatever the store holds. */
  method XorRows(circuit: Circuit, out: nat) returns (rows: seq<Row>)
    requires circuit.signalMap.Length == 7 && circuit.circuitGraph == XorGates(2) && out == 6
    modifies circuit.signalMap
    ensures |rows| == 4
    ensures forall i :: 0 <= i < 4 ==> rows[i].input == RowInput(i, 2)
    ensures forall i :: 0 <= i < 4 ==>
      rows[i].output == [(6, FromBool(Digits(i, 2)[0] != Digits(i, 2)[1]))]
  {
    ghost var s0 := circuit.signalMap[..];
    XorTestable();
    rows := TestCircuit(circuit, 2, [out]);
    assert Pow2(2) == 4;
    forall i | 0 <= i < 4
      ensures rows[i] == Row(RowInput(i, 2), [(6, FromBool(Digits(i, 2)[0] != Digits(i, 2)[1]))])
    {
      XorRowAt(s0, i);
    }
  }

  /** Row `i` of the enumeration of the 2-input xor circuit, from any store of seven signals. */
  lemma XorRowAt(s0: seq<Signal>, i: nat)
    requires |s0| == 7 && Testable(XorGates(2), 7, 2) && i < 4
    ensures TestRows(XorGates(2), s0, 2, [6], 4)[i]
      == Row(RowInput(i, 2), [(6, FromBool(Digits(i, 2)[0] != Digits(i, 2)[1]))])
  {
    TestRowsAt(XorGates(2), s0, 2, [6], 4, i);
    XorRowOutput(2, s0, i);
    ObserveOne(StateAfter(XorGates(2), s0, 2, i + 1), 6);
  }

  /**
   * After row `i`, the last slot of the xor gates holds the xor of the
   * row's two digits, whatever the store held before.
   */
  lemma XorRowOutput(m: nat, s0: seq<Signal>, i: nat)
    requires m >= 2 && |s0| == m + 5 && Testable(XorGates(m), m + 5, 2)
    ensures StateAfter(XorGates(m), s0, 2, i + 1)[m + 4]
      == FromBool(Digits(i, 2)[0] != Digits(i, 2)[1])
  {
    XorOfDigits(m, StateAfter(XorGates(m), s0, 2, i), i);
    StateAfterNext(XorGates(m), s0, 2, i);
  }

  /** The xor gates on a store whose first two slots hold row `i`'s digits. */
  lemma XorOfDigits(m: nat, prev: seq<Signal>, i: nat)
    requires m >= 2 && |prev| == m + 5
    ensures RunsClean(XorGates(m), Overwrite(prev, RowInput(i, 2)))
    ensures RunGates(XorGates(m), Overwrite(prev, RowInput(i, 2)))[m + 4]
      == FromBool(Digits(i, 2)[0] != Digits(i, 2)[1])
  {
    var seeded := Overwrite(prev, RowInput(i, 2));
    assert seeded[0] == RowInput(i, 2)[0];
    assert seeded[1] == RowInput(i, 2)[1];
    XorGatesOutput(m, seeded);
  }

  lemma ObserveOne(s: seq<Signal>, o: nat)
    requires o < |s|
    ensures Observe(s, [o]) == [(o, s[o])]
  {
  }

  /** One more row: overwrite the input prefix with the row's digits and run the gates. */
  lemma StateAfterNext(gs: seq<LogicGate>, s0: seq<Signal>, n: nat, i: nat)
    requires Testable(gs, |s0|, n)
    ensures RunsClean(gs, Overwrite(StateAfter(gs, s0, n, i), RowInput(i, n)))
    ensures StateAfter(gs, s0, n, i + 1) == RunGates(gs, Overwrite(StateAfter(gs, s0, n, i), RowInput(i, n)))
  {
    FeedsRunsClean(gs, Below(n), Overwrite(StateAfter(gs, s0, n, i), RowInput(i, n)));
  }
}
