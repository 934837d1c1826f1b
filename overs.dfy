/** Over arithmetic shared by the scorer and its statistics screens: the six-ball over and the
    "O.B" text (completed overs, a dot, balls of the unfinished over) shown for a ball count. */
module Overs {
  import opened Text
  import opened Types

  const BALLS_PER_OVER: nat := 6

  /** `${floor(balls / 6)}.${balls % 6}`. */
  function FormatOvers(balls: nat): string {
    NatToString(balls / BALLS_PER_OVER) + "." + NatToString(balls % BALLS_PER_OVER)
  }

  /** The index of the first '.' in `s`, or `|s|` when there is none. */
  function FirstDot(s: string): (k: nat)
    ensures k <= |s|
    ensures k < |s| ==> s[k] == '.'
    ensures forall j :: 0 <= j < k ==> s[j] != '.'
  {
    if s == [] || s[0] == '.' then 0 else 1 + FirstDot(s[1..])
  }

  /** Reads an "O.B" text back: the digits before the dot are completed overs, the digits
      after it the balls of the current over, which must be fewer than six. */
  function ParseOvers(s: string): Option<nat> {
    var k := FirstDot(s);
    if k < |s| && AllDigits(s[..k]) && AllDigits(s[k + 1..]) && DigitsValue(s[k + 1..]) < BALLS_PER_OVER then
      Some(BALLS_PER_OVER * DigitsValue(s[..k]) + DigitsValue(s[k + 1..]))
    else None
  }

  /** The overs text loses nothing: reading it back gives the ball count, and the part after
      the dot is a single digit below six. */
  lemma FormatOversRoundTrip(balls: nat)
    ensures ParseOvers(FormatOvers(balls)) == Some(balls)
    ensures var s := FormatOvers(balls); s[|s| - 1] as int - '0' as int == balls % BALLS_PER_OVER < BALLS_PER_OVER
  {
    var q, r := NatToString(balls / BALLS_PER_OVER), NatToString(balls % BALLS_PER_OVER);
    var s := FormatOvers(balls);
    assert s == q + "." + r;
    var k := |q|;
    assert s[k] == '.' && s[..k] == q && s[k + 1..] == r;
    assert forall j :: 0 <= j < k ==> s[j] == q[j];
    assert FirstDot(s) == k;
    assert |r| == 1;
    DigitsValueOfNatToString(balls / BALLS_PER_OVER);
    DigitsValueOfNatToString(balls % BALLS_PER_OVER);
  }
}
