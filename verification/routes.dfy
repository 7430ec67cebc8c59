/** The screens of the root stack navigator and the fixed route table that maps
    a path segment to a screen (src/App.tsx, `RootStackParamList` and
    `routeMap`). */
module Routes {
  import opened Wrappers

  /** The twelve screens of `RootStackParamList`. */
  datatype Screen =
    | Home
    | Game1
    | Game2
    | Game1Results
    | Game2Results
    | About
    | Contact
    | Game1Instructions
    | Game2Instructions
    | InstallReferrer
    | ReferrerApi
    | ReferrerLinkData

  /** The path segment the route table lists for each screen. */
  function SegmentOf(s: Screen): string {
    match s
    case Home => "home"
    case Game1 => "game1"
    case Game2 => "game2"
    case Game1Results => "game1_results"
    case Game2Results => "game2_results"
    case About => "about"
    case Contact => "contact"
    case Game1Instructions => "game1_instructions"
    case Game2Instructions => "game2_instructions"
    case InstallReferrer => "install_referrer"
    case ReferrerApi => "referrer_api"
    case ReferrerLinkData => "referrer_link_data"
  }

  /** The route table lookup `routeMap[segment]`: exact, case-sensitive
      comparison with the twelve keys; any other segment misses. */
  function RouteOf(segment: string): (r: Option<Screen>)
    ensures r.Some? ==> |segment| > 0
  {
    if segment == "home" then Some(Home)
    else if segment == "game1" then Some(Game1)
    else if segment == "game2" then Some(Game2)
    else if segment == "game1_results" then Some(Game1Results)
    else if segment == "game2_results" then Some(Game2Results)
    else if segment == "about" then Some(About)
    else if segment == "contact" then Some(Contact)
    else if segment == "game1_instructions" then Some(Game1Instructions)
    else if segment == "game2_instructions" then Some(Game2Instructions)
    else if segment == "install_referrer" then Some(InstallReferrer)
    else if segment == "referrer_api" then Some(ReferrerApi)
    else if segment == "referrer_link_data" then Some(ReferrerLinkData)
    else None
  }

  /** The table and its inverse agree: a segment maps to a screen exactly
      when it is that screen's key. In particular every screen is reachable
      by exactly one segment and no two keys share a screen. */
  lemma RouteTableInverse(segment: string, s: Screen)
    ensures RouteOf(segment) == Some(s) <==> segment == SegmentOf(s)
  {
    KeyFound(s);
    FoundIsKey(segment);
  }

  /** Every key finds its own screen. */
  lemma KeyFound(s: Screen)
    ensures RouteOf(SegmentOf(s)) == Some(s)
  {
  }

  /** A segment that finds a screen is that screen's key. */
  lemma FoundIsKey(segment: string)
    ensures RouteOf(segment).Some? ==> SegmentOf(RouteOf(segment).value) == segment
  {
  }

  /** No key of the table is empty or contains the path separator, so every
      key can appear as one segment of a path. */
  lemma KeysHaveNoSlash(s: Screen)
    ensures |SegmentOf(s)| > 0
    ensures '/' !in SegmentOf(s)
  {
    match s
    case Home => assert '/' !in "home";
    case Game1 => assert '/' !in "game1";
    case Game2 => assert '/' !in "game2";
    case Game1Results => assert '/' !in "game1_results";
    case Game2Results => assert '/' !in "game2_results";
    case About => assert '/' !in "about";
    case Contact => assert '/' !in "contact";
    case Game1Instructions => assert '/' !in "game1_instructions";
    case Game2Instructions => assert '/' !in "game2_instructions";
    case InstallReferrer => assert '/' !in "install_referrer";
    case ReferrerApi => assert '/' !in "referrer_api";
    case ReferrerLinkData => assert '/' !in "referrer_link_data";
  }

  /** No key of the table contains a colon, so none can form part of a
      scheme separator. */
  lemma KeysHaveNoColon(s: Screen)
    ensures ':' !in SegmentOf(s)
  {
    match s
    case Home => assert ':' !in "home";
    case Game1 => assert ':' !in "game1";
    case Game2 => assert ':' !in "game2";
    case Game1Results => assert ':' !in "game1_results";
    case Game2Results => assert ':' !in "game2_results";
    case About => assert ':' !in "about";
    case Contact => assert ':' !in "contact";
    case Game1Instructions => assert ':' !in "game1_instructions";
    case Game2Instructions => assert ':' !in "game2_instructions";
    case InstallReferrer => assert ':' !in "install_referrer";
    case ReferrerApi => assert ':' !in "referrer_api";
    case ReferrerLinkData => assert ':' !in "referrer_link_data";
  }
}
