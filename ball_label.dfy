/** The ball chip rendered by ScoreHistory.tsx and by the over strip of ScoringScreen.tsx: the
    text on the chip and its colour class. Both screens use the same case analysis; they
    differ only in the glyph of a dot ball. */
module BallLabels {
  import opened Types
  import opened Text

  /** The colour class, one per branch of the case analysis. */
  datatype Style = WicketStyle | FourStyle | SixStyle | ExtraStyle | DotStyle | PlainStyle

  datatype Label = Label(text: string, style: Style)

  /** The dot glyph of ScoreHistory.tsx: the UTF-8 bytes of U+2022 read back as Windows-1252,
      three characters. */
  const HistoryDot: string := "\U{00E2}\U{20AC}\U{00A2}"

  /** The dot glyph of ScoringScreen.tsx: U+2022, a bullet. */
  const StripDot: string := "\U{2022}"

  /** "Wd" or "Nb", followed by "+n" when the ball carried n > 0 runs beyond the penalty run. */
  function ExtraText(b: Ball): (s: string)
    ensures |s| >= 2 && s[0] in "WN"
    ensures s[..2] == (if b.isWide then "Wd" else "Nb")
    ensures |s| == 2 <==> b.extraRuns <= 1
  {
    (if b.isWide then "Wd" else "Nb") + (if b.extraRuns > 1 then "+" + IntToString(b.extraRuns - 1) else "")
  }

  /** The chip of one ball; the first matching case wins: wicket, four, six, wide or no-ball,
      dot ball, anything else. Only the wicket, the extras and the dot change the text from
      the bat runs. */
  function BallLabel(b: Ball, dot: string): (l: Label)
    ensures l.style == WicketStyle <==> b.isWicket
    ensures l.style == FourStyle <==> !b.isWicket && b.runs == 4
    ensures l.style == SixStyle <==> !b.isWicket && b.runs == 6
    ensures l.style == ExtraStyle <==> !b.isWicket && b.runs != 4 && b.runs != 6 && (b.isWide || b.isNoBall)
    ensures l.style == DotStyle <==> !b.isWicket && b.runs == 0 && !b.isWide && !b.isNoBall
    ensures l.style == WicketStyle ==> l.text == "W"
    ensures l.style == ExtraStyle ==> l.text == ExtraText(b)
    ensures l.style == DotStyle ==> l.text == dot
    ensures l.style in {FourStyle, SixStyle, PlainStyle} ==> l.text == IntToString(b.runs)
  {
    var text := IntToString(b.runs);
    if b.isWicket then Label("W", WicketStyle)
    else if b.runs == 4 then Label(text, FourStyle)
    else if b.runs == 6 then Label(text, SixStyle)
    else if b.isWide || b.isNoBall then Label(ExtraText(b), ExtraStyle)
    else if b.runs == 0 && !b.isWide && !b.isNoBall then Label(dot, DotStyle)
    else Label(text, PlainStyle)
  }

  function HistoryLabel(b: Ball): Label {
    BallLabel(b, HistoryDot)
  }

  function StripLabel(b: Ball): Label {
    BallLabel(b, StripDot)
  }

  /** On both screens the chip reads "W" exactly when the ball took a wicket. */
  lemma WicketTextIff(b: Ball)
    ensures HistoryLabel(b).text == "W" <==> b.isWicket
    ensures StripLabel(b).text == "W" <==> b.isWicket
  {
    var s := IntToString(b.runs);
    if b.runs >= 0 {
      assert IsDigit(s[0]);
    } else {
      assert s[0] == '-';
    }
  }

  /** The two screens draw the same chip but for the dot glyph. */
  lemma ScreensAgreeButForDot(b: Ball)
    ensures HistoryLabel(b).style == StripLabel(b).style
    ensures HistoryLabel(b).style != DotStyle ==> HistoryLabel(b) == StripLabel(b)
    ensures HistoryLabel(b).style == DotStyle ==> HistoryLabel(b).text != StripLabel(b).text
  {
  }

  /** Four and six colours take precedence over the extras: a wide or no-ball with four or six
      bat runs shows the bare run count, hiding that it was an extra. */
  lemma BoundaryHidesExtra(b: Ball, dot: string)
    requires !b.isWicket && (b.runs == 4 || b.runs == 6) && (b.isWide || b.isNoBall)
    ensures BallLabel(b, dot).style != ExtraStyle
    ensures BallLabel(b, dot).text == IntToString(b.runs)
  {
  }

  /** Reads an extras chip back: its kind, and the extra runs it stands for (one for a bare
      "Wd"/"Nb"). */
  function ParseExtraText(s: string): Option<(bool, int)> {
    if |s| < 2 || (s[..2] != "Wd" && s[..2] != "Nb") then None
    else if |s| == 2 then Some((s[..2] == "Wd", 1))
    else if s[2] == '+' && |s| > 3 && AllDigits(s[3..]) then Some((s[..2] == "Wd", DigitsValue(s[3..]) + 1))
    else None
  }

  /** An extras chip loses nothing: it gives back whether the ball was a wide and how many
      extra runs it carried, whenever that is at least the penalty run. */
  lemma ExtraTextRoundTrip(b: Ball)
    requires b.extraRuns >= 1
    ensures ParseExtraText(ExtraText(b)) == Some((b.isWide, b.extraRuns))
  {
    var s := ExtraText(b);
    if b.extraRuns > 1 {
      var digits := NatToString(b.extraRuns - 1);
      assert s[3..] == digits;
      DigitsValueOfNatToString(b.extraRuns - 1);
    }
  }
}
