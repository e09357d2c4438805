/**
 * Binary digits of a row number, as both truth-table loops
 * (src/lib.rs and src/table.rs) lay them out: `n` digits, the most
 * significant one at index 0.
 */
module Bits {

  function Pow2(n: nat): (r: nat)
    ensures r >= 1
  {
    if n == 0 then 1 else 2 * Pow2(n - 1)
  }

  /** `i` divided by 2, `j` times over: the loops' `temp` after `j` steps. */
  function Shift(i: nat, j: nat): nat {
    if j == 0 then i else Shift(i / 2, j - 1)
  }

  /** Bit `j` (weight 2^j) of `i`. */
  function Bit(i: nat, j: nat): bool {
    Shift(i, j) % 2 == 1
  }

  /** The `n` low digits of `i`, most significant first. */
  function Digits(i: nat, n: nat): (r: seq<bool>)
    ensures |r| == n
  {
    if n == 0 then [] else Digits(i / 2, n - 1) + [i % 2 == 1]
  }

  /** 0 or 1 for a binary digit. */
  function DigitNumber(b: bool): nat {
    if b then 1 else 0
  }

  /** The number a digit string stands for (most significant first). */
  function Value(bs: seq<bool>): nat {
    if bs == [] then 0 else 2 * Value(bs[..|bs| - 1]) + DigitNumber(bs[|bs| - 1])
  }

  /** One more halving step: what the loops do to `temp`. */
  lemma {:induction false} ShiftStep(i: nat, j: nat)
    ensures Shift(i, j) / 2 == Shift(i, j + 1)
  {
    if j > 0 {
      ShiftStep(i / 2, j - 1);
    }
  }

  /** Entry `n-1-j` of the digit string is bit `j` of the row number. */
  lemma {:induction false} DigitsAt(i: nat, n: nat, j: nat)
    requires j < n
    ensures Digits(i, n)[n - 1 - j] == Bit(i, j)
  {
    if j > 0 {
      DigitsAt(i / 2, n - 1, j - 1);
    }
  }

  /** The digit string of a row number below 2^n reads back as that number. */
  lemma {:induction false} ValueOfDigits(i: nat, n: nat)
    requires i < Pow2(n)
    ensures Value(Digits(i, n)) == i
  {
    if n > 0 {
      ValueOfDigits(i / 2, n - 1);
      var d := Digits(i, n);
      assert d[..n - 1] == Digits(i / 2, n - 1);
    }
  }

  /** Every digit string is the row of the number it stands for. */
  lemma {:induction false} DigitsOfValue(bs: seq<bool>)
    ensures Value(bs) < Pow2(|bs|)
    ensures Digits(Value(bs), |bs|) == bs
  {
    if bs != [] {
      var init := bs[..|bs| - 1];
      DigitsOfValue(init);
      var v := Value(bs);
      assert v / 2 == Value(init);
      assert (v % 2 == 1) == bs[|bs| - 1];
      assert bs == init + [bs[|bs| - 1]];
    }
  }
}
