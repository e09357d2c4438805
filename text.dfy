/**
 * The pieces of Rust's formatting the pattern renderings rely on: a `usize`
 * printed with `{}` (decimal, no leading zeros) and a `Vec` printed with
 * the `Debug` format (elements between brackets, separated by ", ").
 */
module Text {

  predicate IsDigit(c: char) {
    '0' <= c <= '9'
  }

  predicate AllDigits(s: string) {
    forall k :: 0 <= k < |s| ==> IsDigit(s[k])
  }

  predicate NoNewline(s: string) {
    forall k :: 0 <= k < |s| ==> s[k] != '\n'
  }

  predicate NoComma(s: string) {
    forall k :: 0 <= k < |s| ==> s[k] != ','
  }

  /** Concatenating newline-free strings gives a newline-free string. */
  lemma NoNewlineConcat(a: string, b: string)
    requires NoNewline(a) && NoNewline(b)
    ensures NoNewline(a + b)
  {
    forall k | 0 <= k < |a + b|
      ensures (a + b)[k] != '\n'
    {
      if k >= |a| {
        assert (a + b)[k] == b[k - |a|];
      }
    }
  }

  function DigitChar(d: nat): (c: char)
    requires d < 10
    ensures IsDigit(c)
  {
    ('0' as int + d) as char
  }

  function DigitValue(c: char): (d: nat)
    requires IsDigit(c)
    ensures d < 10
  {
    (c as int - '0' as int)
  }

  /** `{}` on a `usize`: its decimal digits, most significant first. */
  function NatToString(n: nat): (r: string)
    ensures |r| >= 1 && AllDigits(r)
    ensures |r| > 1 ==> r[0] != '0'
    decreases n
  {
    if n < 10 then [DigitChar(n)] else NatToString(n / 10) + [DigitChar(n % 10)]
  }

  /** Reading a string of decimal digits back as a number. */
  function ParseNat(s: string): nat
    requires AllDigits(s)
    decreases |s|
  {
    if s == [] then 0 else ParseNat(s[..|s| - 1]) * 10 + DigitValue(s[|s| - 1])
  }

  /** The decimal rendering reads back as the number it renders. */
  lemma {:induction false} ParseNatToString(n: nat)
    ensures ParseNat(NatToString(n)) == n
    decreases n
  {
    var r := NatToString(n);
    if n < 10 {
      assert r[..0] == [];
    } else {
      var a := NatToString(n / 10);
      assert r[..|r| - 1] == a;
      ParseNatToString(n / 10);
    }
  }

  /** Distinct numbers render differently. */
  lemma NatToStringInjective(m: nat, n: nat)
    requires NatToString(m) == NatToString(n)
    ensures m == n
  {
    ParseNatToString(m);
    ParseNatToString(n);
  }

  /** The parts joined by ", ", as the `Debug` format separates the elements of a `Vec`. */
  function Join(parts: seq<string>): (r: string)
    ensures |parts| == 1 ==> r == parts[0]
    decreases |parts|
  {
    if |parts| == 0 then ""
    else if |parts| == 1 then parts[0]
    else parts[0] + ", " + Join(parts[1..])
  }

  /** The `Debug` rendering of a `Vec`, each element already rendered. */
  function Bracketed(parts: seq<string>): (r: string)
    ensures |r| >= 2 && r[0] == '[' && r[|r| - 1] == ']'
  {
    "[" + Join(parts) + "]"
  }

  /** The `Debug` rendering of a `Vec<usize>`. */
  function ShowNats(xs: seq<nat>): string {
    Bracketed(seq(|xs|, k requires 0 <= k < |xs| => NatToString(xs[k])))
  }

  /** Joining newline-free parts gives a newline-free string. */
  lemma {:induction false} JoinNoNewline(parts: seq<string>)
    requires forall k :: 0 <= k < |parts| ==> NoNewline(parts[k])
    ensures NoNewline(Join(parts))
    decreases |parts|
  {
    if |parts| > 1 {
      JoinNoNewline(parts[1..]);
      assert NoNewline(parts[0]) && NoNewline(", ");
      NoNewlineConcat(parts[0], ", ");
      NoNewlineConcat(parts[0] + ", ", Join(parts[1..]));
    }
  }

  /** A newline-free string between brackets is still newline-free. */
  lemma BracketedNoNewline(parts: seq<string>)
    requires forall k :: 0 <= k < |parts| ==> NoNewline(parts[k])
    ensures NoNewline(Bracketed(parts))
  {
    JoinNoNewline(parts);
    var j := Join(parts);
    var r := Bracketed(parts);
    forall k | 0 <= k < |r|
      ensures r[k] != '\n'
    {
      if 0 < k < |r| - 1 {
        assert r[k] == j[k - 1];
      }
    }
  }

  /** A `Vec<usize>` renders on one line. */
  lemma ShowNatsNoNewline(xs: seq<nat>)
    ensures NoNewline(ShowNats(xs))
  {
    var parts := seq(|xs|, k requires 0 <= k < |xs| => NatToString(xs[k]));
    forall k | 0 <= k < |parts|
      ensures NoNewline(parts[k])
    {
      assert AllDigits(parts[k]);
    }
    BracketedNoNewline(parts);
  }

  // Reading a `Debug` list back: the fields between ", " separators.

  /** The index of the first comma of `s`, or `|s|` when there is none. */
  function FirstComma(s: string): (i: nat)
    ensures i <= |s| && (i < |s| ==> s[i] == ',')
    ensures forall k :: 0 <= k < i ==> s[k] != ','
    decreases |s|
  {
    if s == [] || s[0] == ',' then 0 else 1 + FirstComma(s[1..])
  }

  /** `s` cut at each comma, each cut also dropping the space after it. */
  function Fields(s: string): (fs: seq<string>)
    ensures |fs| >= 1
    decreases |s|
  {
    var i := FirstComma(s);
    if i == |s| then [s]
    else [s[..i]] + Fields(s[if i + 2 <= |s| then i + 2 else |s|..])
  }

  /** The element texts of a bracketed list: nothing for "[]". */
  function ParseList(s: string): seq<string> {
    if |s| <= 2 then [] else Fields(s[1..|s| - 1])
  }

  /** A comma in `s` comes at the end of a comma-free prefix `a`. */
  lemma FirstCommaAfter(a: string, t: string)
    requires NoComma(a)
    ensures FirstComma(a + t) >= |a|
    ensures t != [] && t[0] == ',' ==> FirstComma(a + t) == |a|
  {
    forall k | 0 <= k < |a|
      ensures (a + t)[k] != ','
    {
      assert (a + t)[k] == a[k];
    }
    if t != [] {
      assert (a + t)[|a|] == t[0];
    }
  }

  /** Splitting a join of comma-free parts gives the parts back. */
  lemma {:induction false} JoinFields(parts: seq<string>)
    requires |parts| >= 1
    requires forall k :: 0 <= k < |parts| ==> NoComma(parts[k])
    ensures Fields(Join(parts)) == parts
    decreases |parts|
  {
    if |parts| == 1 {
      FirstCommaAfter(parts[0], "");
      assert parts[0] + "" == parts[0];
    } else {
      var p, tail := parts[0], Join(parts[1..]);
      var s := p + ", " + tail;
      assert s == p + (", " + tail);
      FirstCommaAfter(p, ", " + tail);
      assert s[..|p|] == p;
      assert s[|p| + 2..] == tail;
      JoinFields(parts[1..]);
      assert [p] + parts[1..] == parts;
    }
  }

  /**
   * A bracketed list of non-empty, comma-free element texts reads back as
   * those texts, in order.
   */
  lemma BracketedRoundTrip(parts: seq<string>)
    requires forall k :: 0 <= k < |parts| ==> parts[k] != [] && NoComma(parts[k])
    ensures ParseList(Bracketed(parts)) == parts
  {
    var r := Bracketed(parts);
    assert r[1..|r| - 1] == Join(parts);
    if parts != [] {
      assert Join(parts) != [] by {
        if |parts| > 1 {
          assert Join(parts) == parts[0] + ", " + Join(parts[1..]);
        }
      }
      JoinFields(parts);
    }
  }
}
