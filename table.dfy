/**
 * src/table.rs: a truth table (rows of numbers with an input width and an
 * output width), the row layout `prepare_print` builds for a table of a
 * given width, and the size check of `KarnaughMap::new`.
 */
module Table {
  import opened Wrappers
  import opened Bits

  datatype TruthTable = TruthTable(data: seq<seq<nat>>, inputSize: nat, outputSize: nat)

  /** `TruthTable::new`: the getters give back the widths it was built with. */
  function New(data: seq<seq<nat>>, inputSize: nat, outputSize: nat): (t: TruthTable)
    ensures t.data == data && InputSize(t) == inputSize && OutputSize(t) == outputSize
  {
    TruthTable(data, inputSize, outputSize)
  }

  /** `input_size`. */
  function InputSize(t: TruthTable): (n: nat)
    ensures n == t.inputSize
  {
    t.inputSize
  }

  /** `output_size`. */
  function OutputSize(t: TruthTable): (m: nat)
    ensures m == t.outputSize
  {
    t.outputSize
  }

  /**
   * Row `i` of `prepare_print`: the `n` binary digits of `i`, most
   * significant first, then `m` empty output cells.
   */
  function TableRow(i: nat, n: nat, m: nat): (row: seq<Option<nat>>)
    ensures |row| == n + m
  {
    seq(n + m, k requires 0 <= k < n + m => if k < n then Some(DigitNumber(Digits(i, n)[k])) else None)
  }

  /** The whole layout: one row per row number below 2^n. */
  function TableRows(n: nat, m: nat): (rows: seq<seq<Option<nat>>>)
    ensures |rows| == Pow2(n)
  {
    seq(Pow2(n), i requires 0 <= i < Pow2(n) => TableRow(i, n, m))
  }

  /**
   * The inner loop of `prepare_print`: peel off the low bit of `temp` and
   * store it from the right end of the input cells leftwards.
   */
  method FillDigits(inputLine: array<Option<nat>>, n: nat, i: nat)
    requires n <= inputLine.Length
    modifies inputLine
    ensures forall k :: 0 <= k < n ==> inputLine[k] == Some(DigitNumber(Digits(i, n)[k]))
    ensures forall k :: n <= k < inputLine.Length ==> inputLine[k] == old(inputLine[k])
  {
    var temp := i;
    for j := 0 to n
      invariant temp == Shift(i, j)
      invariant forall k :: n - j <= k < n ==> inputLine[k] == Some(DigitNumber(Bit(i, n - 1 - k)))
      invariant forall k :: n <= k < inputLine.Length ==> inputLine[k] == old(inputLine[k])
    {
      var value := temp % 2;
      ShiftStep(i, j);
      temp := temp / 2;
      inputLine[n - j - 1] := Some(value);
    }
    forall k | 0 <= k < n
      ensures inputLine[k] == Some(DigitNumber(Digits(i, n)[k]))
    {
      DigitsAt(i, n, n - 1 - k);
    }
  }

  /**
   * `prepare_print` without the printing: the rows it builds. `2u32.pow`
   * overflows from 32 inputs on, so the width must stay below 32.
   */
  method PreparePrint(inputSize: nat, outputSize: nat) returns (data: seq<seq<Option<nat>>>)
    requires inputSize < 32
    ensures data == TableRows(inputSize, outputSize)
  {
    var n := Pow2(inputSize);
    var rows := new seq<Option<nat>>[n](_ => []);
    for i := 0 to n
      invariant forall r :: 0 <= r < i ==> rows[r] == TableRow(r, inputSize, outputSize)
    {
      var inputLine := new Option<nat>[inputSize + outputSize](_ => None);
      FillDigits(inputLine, inputSize, i);
      assert inputLine[..] == TableRow(i, inputSize, outputSize);
      rows[i] := inputLine[..];
    }
    data := rows[..];
  }

  /**
   * In row `i`, entry `n-1-j` is bit `j` of `i` (the most significant bit
   * comes first), and every output cell is empty.
   */
  lemma RowEntries(i: nat, n: nat, m: nat)
    ensures forall j :: 0 <= j < n ==> TableRow(i, n, m)[n - 1 - j] == Some(DigitNumber(Bit(i, j)))
    ensures forall k :: n <= k < n + m ==> TableRow(i, n, m)[k] == None
  {
    forall j | 0 <= j < n
      ensures TableRow(i, n, m)[n - 1 - j] == Some(DigitNumber(Bit(i, j)))
    {
      DigitsAt(i, n, j);
    }
  }

  /** The input cells of a row read back, in binary, as its row number. */
  lemma RowNumber(i: nat, n: nat, m: nat)
    requires i < Pow2(n)
    ensures forall k :: 0 <= k < n ==> TableRow(i, n, m)[k].Some?
    ensures Value(seq(n, k requires 0 <= k < n => TableRow(i, n, m)[k].value == 1)) == i
  {
    var bs := seq(n, k requires 0 <= k < n => TableRow(i, n, m)[k].value == 1);
    forall k | 0 <= k < n
      ensures bs[k] == Digits(i, n)[k]
    {
      assert TableRow(i, n, m)[k] == Some(DigitNumber(Digits(i, n)[k]));
    }
    assert bs == Digits(i, n);
    ValueOfDigits(i, n);
  }

  /** Distinct row numbers give distinct rows: each number appears once. */
  lemma RowsDistinct(i: nat, j: nat, n: nat, m: nat)
    requires i < Pow2(n) && j < Pow2(n) && i != j
    ensures TableRow(i, n, m) != TableRow(j, n, m)
  {
    RowNumber(i, n, m);
    RowNumber(j, n, m);
  }

  datatype KarnaughMap = KarnaughMap(data: seq<seq<nat>>)

  /**
   * `KarnaughMap::new`: an error for fewer than three inputs and an empty
   * list for more than five. Three to five inputs reach `todo!()`.
   */
  function NewKarnaughMap(t: TruthTable): (r: Result<seq<KarnaughMap>, string>)
    requires !(3 <= InputSize(t) <= 5)
    ensures r.Err? <==> InputSize(t) < 3
    ensures r.Err? ==> r.error == "Input size must be at least 3"
    ensures r.Ok? ==> r.value == []
  {
    if InputSize(t) < 3 then Err("Input size must be at least 3") else Ok([])
  }
}
