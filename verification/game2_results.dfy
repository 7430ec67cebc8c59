/** The level shown on the Game 2 results screen and the message picked for
    it (src/screens/Game2ResultsScreen.tsx). */
module Game2Results {
  import opened Wrappers

  const LevelMaster: string := "Incredible! You are a level master!"
  const GreatProgress: string := "Great progress! Well done!"
  const KeepLeveling: string := "Good effort! Keep leveling up!"
  const ReachHigher: string := "Keep trying! You can reach higher levels!"

  /** The four messages from lowest tier to highest. */
  const Messages: seq<string> := [ReachHigher, KeepLeveling, GreatProgress, LevelMaster]

  /** `route.params?.level || 1`: the level parameter when it is truthy,
      otherwise 1. A missing level and a level of 0 both read as 1, so the
      level shown is never 0. */
  function LevelOrDefault(level: Option<int>): (r: int)
    ensures r != 0
    ensures level.Some? && level.value != 0 ==> r == level.value
    ensures r != 1 ==> level == Some(r)
    ensures level == None || level == Some(0) ==> r == 1
  {
    if level.Some? && level.value != 0 then level.value else 1
  }

  /** `getLevelMessage()`: one message per level band. */
  function LevelMessage(level: int): (m: string)
    ensures m == LevelMaster <==> level >= 10
    ensures m == GreatProgress <==> 5 <= level < 10
    ensures m == KeepLeveling <==> 3 <= level < 5
    ensures m == ReachHigher <==> level < 3
  {
    if level >= 10 then LevelMaster
    else if level >= 5 then GreatProgress
    else if level >= 3 then KeepLeveling
    else ReachHigher
  }

  /** The tier of a message: its position in `Messages`. */
  function Tier(m: string): (t: int)
    ensures 0 <= t < |Messages| ==> Messages[t] == m
    ensures t == -1 <==> m !in Messages
  {
    if m == ReachHigher then 0
    else if m == KeepLeveling then 1
    else if m == GreatProgress then 2
    else if m == LevelMaster then 3
    else -1
  }

  /** Exactly one of the four messages is shown, and a higher level never
      shows a lower tier. */
  lemma LevelMessageMonotone(a: int, b: int)
    requires a <= b
    ensures LevelMessage(a) in Messages && LevelMessage(b) in Messages
    ensures 0 <= Tier(LevelMessage(a)) <= Tier(LevelMessage(b))
  {
  }

  /** A results screen opened without a level (as every navigation issued by
      the deep-link replay is) shows level 1 and the lowest tier. */
  lemma MissingLevelLowestTier()
    ensures LevelOrDefault(None) == 1
    ensures LevelMessage(LevelOrDefault(None)) == ReachHigher
  {
  }
}
