/** The commentary line of utils/commentary.ts: a fixed sentence for a four or a six, a run
    count for one to three runs off a clean legal ball, and nothing otherwise. The state and
    the score before the ball, which the function also receives, do not affect the result. */
module Commentary {
  import opened Types
  import opened Text
  import opened Reducer

  /** A ball that scored one, two or three runs and was neither a wicket nor an extra. */
  predicate RunningBall(ball: Ball) {
    0 < ball.runs < 4 && !ball.isWicket && !ball.isWide && !ball.isNoBall
  }

  function GenerateCommentary(event: LastEvent, ball: Ball): (r: Option<string>)
    ensures event == FourEvent ==> r == Some("Four runs.")
    ensures event == SixEvent ==> r == Some("Six runs.")
    ensures r.Some? <==> event == FourEvent || event == SixEvent || RunningBall(ball)
  {
    if event == FourEvent then Some("Four runs.")
    else if event == SixEvent then Some("Six runs.")
    else if RunningBall(ball) then
      Some(NatToString(ball.runs) + " " + (if ball.runs == 1 then "run" else "runs") + ".")
    else None
  }

  /** The run-count sentence is exactly "1 run.", "2 runs." or "3 runs.": it gives back the
      number of runs as its first character, and the singular "run" only for one. */
  lemma RunSentence(event: LastEvent, ball: Ball)
    requires event != FourEvent && event != SixEvent && RunningBall(ball)
    ensures var s := GenerateCommentary(event, ball).value;
            |s| >= 6 && s[0] as int - '0' as int == ball.runs && s[1] == ' ' &&
            (s == [s[0]] + " run." <==> ball.runs == 1) &&
            (ball.runs == 1 ==> s == "1 run.") &&
            (ball.runs == 2 ==> s == "2 runs.") &&
            (ball.runs == 3 ==> s == "3 runs.")
  {
    var s := GenerateCommentary(event, ball).value;
    assert NatToString(ball.runs) == [DigitChar(ball.runs)];
    if ball.runs != 1 {
      assert s[5] == 's';
    }
  }

  /** For the event the reducer tags a delivery with, commentary is given exactly for a four
      or a six that is not a wicket (wide or no-ball included) and for one to three runs off
      a clean legal ball; wickets, dots and other extras get none. */
  lemma CommentaryOfDelivery(d: Delivery, ballNumber: nat, overNumber: nat)
    ensures GenerateCommentary(EventOf(d), RecordedBall(d, ballNumber, overNumber)).Some? <==>
            !d.isWicket && (d.runs == 4 || d.runs == 6 || (0 < d.runs < 4 && IsLegal(d)))
  {
  }
}
