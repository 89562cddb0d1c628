/** The date-stamped numbers the components build from the local calendar:
    `${year}${month}${day}` and a three-digit sequence after a prefix. */
module Numbering {
  import opened Seqs
  import opened Strings
  import opened Types

  /** A draw of `Math.floor(Math.random() * 1000)`. */
  type OrderDraw = n: nat | n < 1000

  /** `${year}${month}${day}`, month and day two digits wide. */
  function DateStr(clock: Clock): (r: string)
    ensures |r| == |NatToString(clock.year)| + 4 && AllDigits(r)
  {
    NatToString(clock.year) + TwoDigits(clock.month) + TwoDigits(clock.day)
  }

  /** The date part is the one the template literal builds with `padStart(2, '0')`. */
  lemma DateStrPadded(clock: Clock)
    ensures DateStr(clock) == NatToString(clock.year) + ZeroPadded(clock.month, 2) + ZeroPadded(clock.day, 2)
  {
    TwoDigitsPadded(clock.month);
    TwoDigitsPadded(clock.day);
  }

  /** `${prefix}-${sequence}`, the sequence zero-padded to three digits. */
  function Sequenced(prefix: string, n: nat): (r: string)
    ensures |r| >= |prefix| + 4 && r[..|prefix|] == prefix && r[|prefix|] == '-'
    ensures AllDigits(r[|prefix| + 1..]) && DigitsValue(r[|prefix| + 1..]) == n
    ensures n < 1000 ==> |r| == |prefix| + 4
  {
    var sequence := ZeroPadded(n, 3);
    var tail := "-" + sequence;
    assert Pow10(3) == 1000;
    assert tail[1..] == sequence;
    var r := prefix + tail;
    Split(prefix, tail);
    assert r[|prefix| + 1..] == sequence;
    r
  }
}
