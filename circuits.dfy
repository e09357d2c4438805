/**
 * src/circuit.rs: a circuit owns an append-only signal store, the ordered
 * list of its gates and the counter `next_valid_id` from which gate output
 * ids are handed out.
 */
module Circuits {
  import opened Signals
  import opened Gates

  /** The `input` prefix of the store replaced by the given signals. */
  function Overwrite(s: seq<Signal>, input: seq<Signal>): (r: seq<Signal>)
    requires |input| <= |s|
    ensures |r| == |s|
    ensures forall k :: 0 <= k < |input| ==> r[k] == input[k]
    ensures forall k :: |input| <= k < |s| ==> r[k] == s[k]
  {
    input + s[|input|..]
  }

  /** Running `gs` in order from store `s` never panics. */
  predicate RunsClean(gs: seq<LogicGate>, s: seq<Signal>)
    decreases |gs|
  {
    gs == [] || (Ready(gs[0], s) && RunsClean(gs[1..], Apply(gs[0], s)))
  }

  /** The store after running every gate of `gs` once, in stored order. */
  function RunGates(gs: seq<LogicGate>, s: seq<Signal>): (r: seq<Signal>)
    requires RunsClean(gs, s)
    ensures |r| == |s|
    decreases |gs|
  {
    if gs == [] then s else RunGates(gs[1..], Apply(gs[0], s))
  }

  /** Running two gate lists back to back is running their concatenation. */
  lemma {:induction false} RunGatesAppend(a: seq<LogicGate>, b: seq<LogicGate>, s: seq<Signal>)
    ensures RunsClean(a + b, s) <==> RunsClean(a, s) && RunsClean(b, RunGates(a, s))
    ensures RunsClean(a + b, s) ==> RunGates(a + b, s) == RunGates(b, RunGates(a, s))
    decreases |a|
  {
    if a == [] {
      assert a + b == b;
    } else {
      assert (a + b)[0] == a[0];
      assert (a + b)[1..] == a[1..] + b;
      if Ready(a[0], s) {
        RunGatesAppend(a[1..], b, Apply(a[0], s));
      }
    }
  }

  /** The ids each gate touches lie below `len`. */
  predicate IdsBelow(g: LogicGate, len: nat) {
    && (|g.output| >= 1 ==> g.output[0] < len)
    && forall k :: 0 <= k < |g.input| && k < Arity(g.typ) ==> g.input[k] < len
  }

  predicate IdsIn(gs: seq<LogicGate>, len: nat) {
    forall j :: 0 <= j < |gs| ==> IdsBelow(gs[j], len)
  }

  /**
   * Wiring discipline: each gate reads only ids in `known` or ids written
   * by an earlier gate of the list.
   */
  predicate Feeds(gs: seq<LogicGate>, known: set<nat>)
    decreases |gs|
  {
    || gs == []
    || (&& Shapely(gs[0])
        && (forall k :: 0 <= k < Arity(gs[0].typ) ==> gs[0].input[k] in known)
        && Feeds(gs[1..], known + {gs[0].output[0]}))
  }

  /** The ids below `n`: the slots an input vector of length `n` fills. */
  function Below(n: nat): (r: set<nat>)
    ensures forall x: int :: x in r <==> 0 <= x < n
  {
    if n == 0 then {} else Below(n - 1) + {n - 1}
  }

  /**
   * A list wired by that discipline runs without panicking whenever the
   * `known` slots hold known values: gates only ever write known values.
   */
  lemma {:induction false} FeedsRunsClean(gs: seq<LogicGate>, known: set<nat>, s: seq<Signal>)
    requires Feeds(gs, known) && IdsIn(gs, |s|)
    requires forall x :: x in known ==> x < |s| && Known(s[x])
    ensures RunsClean(gs, s)
    decreases |gs|
  {
    if gs != [] {
      var g := gs[0];
      assert IdsBelow(g, |s|);
      assert Ready(g, s);
      var s' := Apply(g, s);
      assert IdsIn(gs[1..], |s'|) by {
        forall j | 0 <= j < |gs[1..]|
          ensures IdsBelow(gs[1..][j], |s'|)
        {
          assert gs[1..][j] == gs[j + 1];
        }
      }
      FeedsRunsClean(gs[1..], known + {g.output[0]}, s');
    }
  }

  class Circuit {
    var signalMap: array<Signal>
    var input: nat
    var circuitGraph: seq<LogicGate>
    var nextValidId: nat

    /** `next_valid_id` always equals the length of the store. */
    ghost predicate Valid()
      reads this
    {
      nextValidId == signalMap.Length
    }

    /** `Circuit::new(input)`: `input` unknown signals and no gates. */
    constructor (input: nat)
      ensures Valid() && fresh(signalMap)
      ensures signalMap[..] == seq(input, _ => Default())
      ensures this.input == input && circuitGraph == [] && nextValidId == input
    {
      signalMap := new Signal[input](_ => Default());
      this.input := input;
      circuitGraph := [];
      nextValidId := input;
    }

    /**
     * `add_gate`: the new gate writes a fresh id equal to the old counter,
     * the counter moves on by one and the store grows by one unknown signal.
     */
    method AddGate(typ: GateType, ids: seq<nat>) returns (id: nat)
      requires Valid()
      modifies this
      ensures Valid() && fresh(signalMap)
      ensures id == old(nextValidId) && nextValidId == id + 1
      ensures circuitGraph == old(circuitGraph) + [New(typ, ids, [id])]
      ensures signalMap[..] == old(signalMap[..]) + [Default()]
      ensures input == old(input)
    {
      var gate := New(typ, ids, [nextValidId]);
      nextValidId := nextValidId + 1;
      circuitGraph := circuitGraph + [gate];
      var old_map := signalMap;
      var grown := new Signal[old_map.Length + 1](
        k reads old_map => if 0 <= k < old_map.Length then old_map[k] else Default());
      signalMap := grown;
      id := nextValidId - 1;
      assert signalMap[..] == old_map[..] + [Default()];
    }

    /**
     * `add_xor_gate`: five gates computing the xor of signals 0 and 1 (the
     * `input` argument is never read); returns the id of the last one.
     */
    method AddXorGate(ids: seq<nat>) returns (out: nat)
      requires Valid() && |ids| == 2
      modifies this
      ensures Valid() && fresh(signalMap)
      ensures out == old(nextValidId) + 4 && nextValidId == out + 1
      ensures circuitGraph == old(circuitGraph) + XorGates(old(nextValidId))
      ensures signalMap[..] == old(signalMap[..]) + seq(5, _ => Default())
      ensures input == old(input)
    {
      var not0 := AddGate(Not, [0]);
      var not1 := AddGate(Not, [1]);
      var and1 := AddGate(And, [0, not1]);
      var and2 := AddGate(And, [1, not0]);
      out := AddGate(Or, [and1, and2]);
    }

    /**
     * `execute`: copy `input` over the first slots, then run every gate
     * once in stored order, in place.
     */
    method Execute(inputs: seq<Signal>)
      requires |inputs| <= signalMap.Length
      requires RunsClean(circuitGraph, Overwrite(signalMap[..], inputs))
      modifies signalMap
      ensures signalMap[..] == RunGates(circuitGraph, Overwrite(old(signalMap[..]), inputs))
    {
      for i := 0 to |inputs|
        invariant forall k :: 0 <= k < i ==> signalMap[k] == inputs[k]
        invariant forall k :: i <= k < signalMap.Length ==> signalMap[k] == old(signalMap[k])
      {
        signalMap[i] := inputs[i];
      }
      assert signalMap[..] == Overwrite(old(signalMap[..]), inputs);
      ghost var seeded := signalMap[..];
      var k := 0;
      while k < |circuitGraph|
        invariant 0 <= k <= |circuitGraph|
        invariant RunsClean(circuitGraph[k..], signalMap[..])
        invariant RunGates(circuitGraph[k..], signalMap[..]) == RunGates(circuitGraph, seeded)
      {
        assert circuitGraph[k..][0] == circuitGraph[k];
        assert circuitGraph[k..][1..] == circuitGraph[k + 1..];
        Gates.Execute(circuitGraph[k], signalMap);
        k := k + 1;
      }
    }

    /** `get_signal`: reads one slot and changes nothing. */
    method GetSignal(index: nat) returns (s: Signal)
      requires index < signalMap.Length
      ensures s == signalMap[index]
    {
      s := signalMap[index];
    }
  }

  /** The five gates `add_xor_gate` appends when the counter stands at `n`. */
  function XorGates(n: nat): seq<LogicGate> {
    [ New(Not, [0], [n]),
      New(Not, [1], [n + 1]),
      New(And, [0, n + 1], [n + 2]),
      New(And, [1, n], [n + 3]),
      New(Or, [n + 2, n + 3], [n + 4]) ]
  }

  /**
   * With known values in slots 0 and 1 (and the gates' own slots above
   * them), the xor gates run cleanly and leave `s[0] != s[1]` at `n + 4`.
   */
  lemma XorGatesOutput(n: nat, s: seq<Signal>)
    requires 2 <= n && n + 5 <= |s|
    requires Known(s[0]) && Known(s[1])
    ensures RunsClean(XorGates(n), s)
    ensures var r := RunGates(XorGates(n), s);
      Known(r[n + 4]) && GetUnchecked(r[n + 4]) == (GetUnchecked(s[0]) != GetUnchecked(s[1]))
  {
    var s1, s2, s3, s4, s5 := XorSteps(n, s);
    RunFive(XorGates(n), s, s1, s2, s3, s4, s5);
  }

  /** Five gates, each ready on the store the previous one left, run cleanly to the last store. */
  lemma RunFive(gs: seq<LogicGate>, s: seq<Signal>, s1: seq<Signal>, s2: seq<Signal>, s3: seq<Signal>, s4: seq<Signal>, s5: seq<Signal>)
    requires |gs| == 5
    requires Ready(gs[0], s) && s1 == Apply(gs[0], s)
    requires Ready(gs[1], s1) && s2 == Apply(gs[1], s1)
    requires Ready(gs[2], s2) && s3 == Apply(gs[2], s2)
    requires Ready(gs[3], s3) && s4 == Apply(gs[3], s3)
    requires Ready(gs[4], s4) && s5 == Apply(gs[4], s4)
    ensures RunsClean(gs, s) && RunGates(gs, s) == s5
  {
    Step(gs[4], [], s4);
    assert [gs[4]] == gs[4..];
    Step(gs[3], gs[4..], s3);
    assert [gs[3]] + gs[4..] == gs[3..];
    Step(gs[2], gs[3..], s2);
    assert [gs[2]] + gs[3..] == gs[2..];
    Step(gs[1], gs[2..], s1);
    assert [gs[1]] + gs[2..] == gs[1..];
    Step(gs[0], gs[1..], s);
    assert [gs[0]] + gs[1..] == gs;
  }

  /** The five intermediate stores of the xor gates, one gate at a time. */
  lemma XorSteps(n: nat, s: seq<Signal>) returns (s1: seq<Signal>, s2: seq<Signal>, s3: seq<Signal>, s4: seq<Signal>, s5: seq<Signal>)
    requires 2 <= n && n + 5 <= |s|
    requires Known(s[0]) && Known(s[1])
    ensures var gs := XorGates(n);
      && Ready(gs[0], s) && s1 == Apply(gs[0], s)
      && Ready(gs[1], s1) && s2 == Apply(gs[1], s1)
      && Ready(gs[2], s2) && s3 == Apply(gs[2], s2)
      && Ready(gs[3], s3) && s4 == Apply(gs[3], s3)
      && Ready(gs[4], s4) && s5 == Apply(gs[4], s4)
      && Known(s5[n + 4]) && GetUnchecked(s5[n + 4]) == (GetUnchecked(s[0]) != GetUnchecked(s[1]))
  {
    var a, b := GetUnchecked(s[0]), GetUnchecked(s[1]);
    var gs := XorGates(n);
    s1 := Apply(gs[0], s);
    assert s1[0] == s[0] && s1[1] == s[1] && GetUnchecked(s1[n]) == !a;
    s2 := Apply(gs[1], s1);
    assert s2[0] == s[0] && s2[1] == s[1] && s2[n] == s1[n] && GetUnchecked(s2[n + 1]) == !b;
    s3 := Apply(gs[2], s2);
    assert s3[n] == s1[n] && s3[1] == s[1] && GetUnchecked(s3[n + 2]) == (a && !b);
    s4 := Apply(gs[3], s3);
    assert s4[n + 2] == s3[n + 2] && GetUnchecked(s4[n + 3]) == (b && !a);
    s5 := Apply(gs[4], s4);
  }

  /** Running `[g] + rest` is running `g`, then `rest`. */
  lemma Step(g: LogicGate, rest: seq<LogicGate>, s: seq<Signal>)
    requires Ready(g, s) && RunsClean(rest, Apply(g, s))
    ensures RunsClean([g] + rest, s)
    ensures RunGates([g] + rest, s) == RunGates(rest, Apply(g, s))
  {
    assert ([g] + rest)[0] == g;
    assert ([g] + rest)[1..] == rest;
  }
}
