/** The score shown on the Game 1 results screen and the message picked for
    it (src/screens/Game1ResultsScreen.tsx). */
module Game1Results {
  import opened Wrappers

  const Excellent: string := "Excellent! You are a master!"
  const GreatJob: string := "Great job! Well played!"
  const GoodEffort: string := "Good effort! Keep practicing!"
  const KeepTrying: string := "Keep trying! You can do better!"

  /** The four messages from lowest tier to highest. */
  const Messages: seq<string> := [KeepTrying, GoodEffort, GreatJob, Excellent]

  /** `route.params?.score || 0`: the score parameter when it is truthy,
      otherwise 0. Since 0 is the only falsy integer, this is the parameter
      with a missing score read as 0. */
  function ScoreOrDefault(score: Option<int>): (r: int)
    ensures r == score.GetOr(0)
    ensures r != 0 ==> score == Some(r)
  {
    if score.Some? && score.value != 0 then score.value else 0
  }

  /** `getScoreMessage()`: one message per score band. */
  function ScoreMessage(score: int): (m: string)
    ensures m == Excellent <==> score >= 100
    ensures m == GreatJob <==> 50 <= score < 100
    ensures m == GoodEffort <==> 20 <= score < 50
    ensures m == KeepTrying <==> score < 20
  {
    if score >= 100 then Excellent
    else if score >= 50 then GreatJob
    else if score >= 20 then GoodEffort
    else KeepTrying
  }

  /** The tier of a message: its position in `Messages`. */
  function Tier(m: string): (t: int)
    ensures 0 <= t < |Messages| ==> Messages[t] == m
    ensures t == -1 <==> m !in Messages
  {
    if m == KeepTrying then 0
    else if m == GoodEffort then 1
    else if m == GreatJob then 2
    else if m == Excellent then 3
    else -1
  }

  /** Exactly one of the four messages is shown, and a higher score never
      shows a lower tier. */
  lemma ScoreMessageMonotone(a: int, b: int)
    requires a <= b
    ensures ScoreMessage(a) in Messages && ScoreMessage(b) in Messages
    ensures 0 <= Tier(ScoreMessage(a)) <= Tier(ScoreMessage(b))
  {
  }

  /** A results screen opened without a score (as every navigation issued by
      the deep-link replay is) shows the lowest tier. */
  lemma MissingScoreLowestTier()
    ensures ScoreMessage(ScoreOrDefault(None)) == KeepTrying
    ensures Tier(ScoreMessage(ScoreOrDefault(None))) == 0
  {
  }
}
