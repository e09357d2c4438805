/**
 * src/signal.rs: a signal is `Signal(Option<bool>)`, a line value that is
 * known (true or false) or unknown (`None`).
 */
module Signals {
  import opened Wrappers

  datatype Signal = Signal(value: Option<bool>)

  predicate Known(s: Signal) {
    s.value.Some?
  }

  /** `Default for Signal`: every fresh signal starts unknown. */
  function Default(): (s: Signal)
    ensures !Known(s)
  {
    Signal(None)
  }

  /** `BinarySignal::from_bool`: a known signal carrying `b`. */
  function FromBool(b: bool): (s: Signal)
    ensures Known(s)
  {
    Signal(Some(b))
  }

  /**
   * `BinarySignal::get_unchecked` unwraps the value; on an unknown signal
   * the unwrap panics, so knowing the value is the caller's obligation.
   */
  function GetUnchecked(s: Signal): (b: bool)
    requires Known(s)
    ensures FromBool(b) == s
  {
    s.value.value
  }

  /** Reading a signal made by `from_bool` gives back the boolean. */
  lemma GetUncheckedFromBool(b: bool)
    ensures GetUnchecked(FromBool(b)) == b
  {
  }

  /** `Debug for Signal`: "1" for true, "0" for false, "_" for unknown. */
  function Show(s: Signal): (r: string)
    ensures |r| == 1
    ensures r == "_" <==> !Known(s)
    ensures Known(s) && GetUnchecked(s) ==> r == "1"
    ensures Known(s) && !GetUnchecked(s) ==> r == "0"
  {
    match s.value
    case Some(true) => "1"
    case Some(false) => "0"
    case None => "_"
  }

  /** The rendering loses nothing: distinct signals render differently. */
  lemma ShowInjective(a: Signal, b: Signal)
    requires Show(a) == Show(b)
    ensures a == b
  {
  }
}
