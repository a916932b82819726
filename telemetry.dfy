/**
 * The pyrometer's arithmetic, shared by the current engine and by both legacy
 * pyrometer classes: decoding a two-byte reading into degrees, and the
 * fixed-length moving-average window with its three update rules.
 */
module Telemetry {
  import opened Common

  // ---------------------------------------------------------------------------
  // Decoding
  // ---------------------------------------------------------------------------

  /** The big-endian unsigned 16-bit value carried by the first two bytes. */
  function Raw(hi: Byte, lo: Byte): (r: nat)
    ensures r < 65536
    ensures r / 256 == hi && r % 256 == lo
  {
    hi * 256 + lo
  }

  /** A temperature the device can report: a whole number of tenths in the 16-bit range. */
  predicate Representable(t: real) {
    -100.0 <= t <= 6453.5 && (t * 10.0).Floor as real == t * 10.0
  }

  /** The device's scale: degrees = (raw - 1000) / 10. */
  function DecodeTemperature(hi: Byte, lo: Byte): (t: real)
    ensures Representable(t)
    ensures (t * 10.0).Floor + 1000 == Raw(hi, lo)
  {
    (Raw(hi, lo) - 1000) as real / 10.0
  }

  /** The inverse of DecodeTemperature: the two bytes a device sends for `t`. */
  function EncodeTemperature(t: real): (bytes: (Byte, Byte))
    requires Representable(t)
    ensures Raw(bytes.0, bytes.1) == (t * 10.0).Floor + 1000
  {
    var raw := (t * 10.0).Floor + 1000;
    (raw / 256, raw % 256)
  }

  lemma DecodeEncode(t: real)
    requires Representable(t)
    ensures DecodeTemperature(EncodeTemperature(t).0, EncodeTemperature(t).1) == t
  {
  }

  lemma EncodeDecode(hi: Byte, lo: Byte)
    ensures EncodeTemperature(DecodeTemperature(hi, lo)) == (hi, lo)
  {
    var t := DecodeTemperature(hi, lo);
    var bytes := EncodeTemperature(t);
    assert Raw(bytes.0, bytes.1) == Raw(hi, lo);
  }

  /** A larger raw reading always decodes to a higher temperature. */
  lemma DecodeMonotonic(a0: Byte, a1: Byte, b0: Byte, b1: Byte)
    ensures Raw(a0, a1) < Raw(b0, b1) <==> DecodeTemperature(a0, a1) < DecodeTemperature(b0, b1)
  {
  }

  lemma DecodeExample()
    ensures DecodeTemperature(0x27, 0x10) == 900.0
    ensures DecodeTemperature(0x03, 0xE8) == 0.0
  {
  }

  // ---------------------------------------------------------------------------
  // Moving-average window
  // ---------------------------------------------------------------------------

  function Sum(s: seq<real>): real {
    if s == [] then 0.0 else s[0] + Sum(s[1..])
  }

  function Mean(s: seq<real>): real
    requires |s| > 0
  {
    Sum(s) / (|s| as real)
  }

  /** The list `[x] * n`. */
  function Repeat(x: real, n: nat): (r: seq<real>)
    ensures |r| == n
    ensures forall i :: 0 <= i < n ==> r[i] == x
  {
    seq(n, _ => x)
  }

  predicate AllAtLeast(s: seq<real>, floor: real) {
    forall i :: 0 <= i < |s| ==> s[i] >= floor
  }

  /** Which of the three update rules a new sample triggers. */
  datatype Rule = ResetToFloor | FastConverge | Slide

  function RuleFor(current: real, average: real, floor: real): (rule: Rule)
    ensures rule == ResetToFloor <==> current <= floor
    ensures rule == FastConverge <==> current > floor && current > average + 20.0
    ensures rule == Slide <==> floor < current <= average + 20.0
  {
    if current <= floor then ResetToFloor
    else if current > average + 20.0 then FastConverge
    else Slide
  }

  /**
   * The window after one sample: reset to `n` copies of the floor, replace by
   * `n` copies of the sample, or append the sample and drop the oldest entry.
   * `average` is the average before the update.
   */
  function NextWindow(window: seq<real>, current: real, average: real, floor: real, n: nat): (w: seq<real>)
    ensures |window| == n ==> |w| == n
    ensures AllAtLeast(window, floor) ==> AllAtLeast(w, floor)
  {
    match RuleFor(current, average, floor)
    case ResetToFloor => Repeat(floor, n)
    case FastConverge => Repeat(current, n)
    case Slide => (window + [current])[1..]
  }

  lemma {:induction false} SumRepeat(x: real, n: nat)
    ensures Sum(Repeat(x, n)) == (n as real) * x
  {
    if n > 0 {
      assert Repeat(x, n)[1..] == Repeat(x, n - 1);
      SumRepeat(x, n - 1);
    }
  }

  lemma MeanRepeat(x: real, n: nat)
    requires n > 0
    ensures Mean(Repeat(x, n)) == x
  {
    SumRepeat(x, n);
  }

  lemma {:induction false} SumAppend(s: seq<real>, x: real)
    ensures Sum(s + [x]) == Sum(s) + x
  {
    if s != [] {
      assert (s + [x])[1..] == s[1..] + [x];
      SumAppend(s[1..], x);
    }
  }

  lemma {:induction false} SumAtLeast(s: seq<real>, floor: real)
    requires AllAtLeast(s, floor)
    ensures Sum(s) >= (|s| as real) * floor
  {
    if s != [] {
      SumAtLeast(s[1..], floor);
    }
  }

  lemma MeanAtLeast(s: seq<real>, floor: real)
    requires |s| > 0 && AllAtLeast(s, floor)
    ensures Mean(s) >= floor
  {
    SumAtLeast(s, floor);
  }

  /**
   * The average after one update: the floor after a reset, the sample itself
   * after a fast converge, and otherwise the mean of the old window with its
   * oldest entry replaced by the sample.
   */
  lemma NextMean(window: seq<real>, current: real, average: real, floor: real, n: nat)
    requires n > 0 && |window| == n
    ensures var w := NextWindow(window, current, average, floor, n);
      match RuleFor(current, average, floor)
      case ResetToFloor => Mean(w) == floor
      case FastConverge => Mean(w) == current
      case Slide => w == window[1..] + [current] && Mean(w) == (Sum(window) - window[0] + current) / (n as real)
  {
    match RuleFor(current, average, floor)
    case ResetToFloor => MeanRepeat(floor, n);
    case FastConverge => MeanRepeat(current, n);
    case Slide =>
      assert (window + [current])[1..] == window[1..] + [current];
      SumAppend(window[1..], current);
  }

  /** Python's `int()` on a number: truncation toward zero. */
  function Trunc(x: real): (k: int)
    ensures 0.0 <= x ==> 0 <= k && k as real <= x < k as real + 1.0
    ensures x < 0.0 ==> k <= 0 && k as real - 1.0 < x <= k as real
  {
    if x >= 0.0 then x.Floor else -((-x).Floor)
  }

  /** Truncating a value at or above a whole number never falls below it. */
  lemma TruncAtLeast(x: real, k: int)
    requires x >= k as real
    ensures Trunc(x) >= k
  {
  }
}
