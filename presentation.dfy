/**
 * Helpers shared by the two browser scripts: `formatTime` (seconds to
 * `m:ss`) and `capitalizeFirstLetter`. Both scripts define the same
 * `formatTime`.
 */
module Presentation {
  import opened Text

  /** A JavaScript number as these helpers receive it: NaN or a finite value. */
  datatype Number = NaN | Num(value: real)

  /** `Math.trunc`, the rounding JavaScript's `%` uses on its quotient. */
  function Trunc(x: real): int
  {
    if x >= 0.0 then x.Floor else -((-x).Floor)
  }

  /** JavaScript's `n % d`: the remainder takes the sign of `n`. */
  function Rem(n: real, d: real): real
    requires d != 0.0
  {
    n - d * (Trunc(n / d) as real)
  }

  /** `formatTime(seconds)`. */
  function FormatTime(t: Number): string
  {
    match t
    case NaN => "0:00"
    case Num(s) =>
      var minutes := (s / 60.0).Floor;
      var seconds := Rem(s, 60.0).Floor;
      IntToString(minutes) + ":" + (if seconds < 10 then "0" else "") + IntToString(seconds)
  }

  /** Two decimal digits. */
  function TwoDigits(n: nat): (r: string)
    requires n < 100
    ensures |r| == 2 && IsDigit(r[0]) && IsDigit(r[1])
  {
    [DigitChar(n / 10), DigitChar(n % 10)]
  }

  /** On a non-negative time the minutes are whole minutes and the seconds the rest, padded to two digits. */
  lemma FormatTimeOfNonNegative(s: real)
    requires s >= 0.0
    ensures FormatTime(Num(s)) == NatToString(s.Floor / 60) + ":" + TwoDigits(s.Floor % 60)
  {
    var n := s.Floor;
    var m, k := n / 60, n % 60;
    assert n == 60 * m + k && 0 <= k < 60;
    assert (m as real) <= s / 60.0 < (m + 1) as real by {
      assert (n as real) <= s < (n + 1) as real;
      assert (60 * m) as real <= s;
      assert s < (60 * m + 60) as real;
    }
    assert (s / 60.0).Floor == m;
    assert Trunc(s / 60.0) == m;
    var rem := Rem(s, 60.0);
    assert rem == s - 60.0 * (m as real);
    assert (k as real) <= rem < (k + 1) as real;
    assert rem.Floor == k;
    if k < 10 {
      assert NatToString(k) == [DigitChar(k)];
      assert TwoDigits(k) == "0" + NatToString(k);
    } else {
      assert NatToString(k / 10) == [DigitChar(k / 10)];
      assert NatToString(k) == [DigitChar(k / 10)] + [DigitChar(k % 10)];
    }
  }

  /** Reading a non-negative time back: the two fields give the whole seconds, and the second field is below 60. */
  lemma FormatTimeReadsBack(s: real)
    requires s >= 0.0
    ensures var r := FormatTime(Num(s));
      && |r| >= 4 && r[|r| - 3] == ':'
      && (forall i :: 0 <= i < |r| - 3 ==> IsDigit(r[i]))
      && IsDigit(r[|r| - 2]) && IsDigit(r[|r| - 1])
      && ParseNat(r[|r| - 2..]) < 60
      && ParseNat(r[..|r| - 3]) * 60 + ParseNat(r[|r| - 2..]) == s.Floor
  {
    FormatTimeOfNonNegative(s);
    var n := s.Floor;
    var ms := NatToString(n / 60);
    var ss := TwoDigits(n % 60);
    ColonFields(ms, ss);
    ParseNatToString(n / 60);
    ParseTwoDigits(n % 60);
  }

  lemma ColonFields(ms: string, ss: string)
    requires |ss| == 2
    ensures var r := ms + ":" + ss;
      r[..|r| - 3] == ms && r[|r| - 3] == ':' && r[|r| - 2..] == ss
  {
  }

  lemma ParseTwoDigits(n: nat)
    requires n < 100
    ensures ParseNat(TwoDigits(n)) == n
  {
    var ss := TwoDigits(n);
    assert ss[..1] == [DigitChar(n / 10)];
    assert ss[..1][..0] == [];
    assert ParseNat(ss[..1]) == n / 10;
    assert ParseNat(ss) == (n / 10) * 10 + n % 10;
  }

  /** NaN, the time of a video without metadata, shows as zero. */
  lemma FormatTimeOfNaN()
    ensures FormatTime(NaN) == FormatTime(Num(0.0)) == "0:00"
  {
    FormatTimeOfNonNegative(0.0);
    assert NatToString(0) == "0";
  }

  /** `capitalizeFirstLetter(s)`: the first character upper-cased, the rest as is. */
  function Capitalize(s: string): (r: string)
    ensures |r| == |s|
    ensures |s| > 0 ==> r[1..] == s[1..]
    ensures |s| > 0 && !('a' <= s[0] <= 'z') ==> r[0] == s[0]
    ensures |s| > 0 && 'a' <= s[0] <= 'z' ==> 'A' <= r[0] <= 'Z' && LowerChar(r[0]) == s[0]
  {
    if |s| == 0 then "" else [UpperChar(s[0])] + s[1..]
  }

  /** Capitalizing twice is capitalizing once. */
  lemma CapitalizeIdempotent(s: string)
    ensures Capitalize(Capitalize(s)) == Capitalize(s)
  {
  }
}
