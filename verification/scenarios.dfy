/** Whole runs of the root component on concrete links. */
module Scenarios {
  import opened Wrappers
  import opened Routes
  import opened DeepLink
  import opened DeepLinkExamples
  import opened Resolver
  import opened Scheduling

  /** The cold-start link `game1/game1_results` is accepted before the
      navigator mounts. */
  const Accepted: LinkState := LinkState(true, Some(Game1), [Game1Results], [])

  lemma ColdStartAccepted(pathname: UrlPathname)
    ensures Step(Start, InitialUrl(Some("game1/game1_results")), pathname) == Accepted
    ensures |ParseDeepLink("game1/game1_results", pathname)| == 2
  {
    assert HandleDeepLink(Start, "game1/game1_results", pathname) == Accepted by {
      BarePathOpensEachSegment(pathname);
      assert [Game1, Game1Results][1..] == [Game1Results];
    }
    BarePathOpensEachSegment(pathname);
  }

  /** As written, once the navigator mounts after that cold start, it shows
      Game1. Game1Results stays pending, the flag stays set, and a later
      live link `myapp://game2` is dropped. */
  lemma ColdStartBeforeMountStalls(pathname: UrlPathname)
    ensures var mounted := Dispatch(Dispatch(Boot, ColdStart(Some("game1/game1_results")), pathname), Mount, pathname);
      && mounted == Host(Accepted, true, Some(Game1))
      && Dispatch(mounted, LiveUrl("myapp://game2"), pathname) == mounted
  {
    ColdStartAccepted(pathname);
    LinkBeforeMountStalls(Start, "game1/game1_results", pathname);
  }

  /** With the replay also run at mount, the same cold start shows Game1,
      navigates once to Game1Results and clears the flag. */
  lemma ColdStartBeforeMountReplaysWhenFixed(pathname: UrlPathname)
    ensures var mounted := DispatchReplayingOnMount(
        DispatchReplayingOnMount(Boot, ColdStart(Some("game1/game1_results")), pathname), Mount, pathname);
      mounted == Host(LinkState(false, Some(Game1), [], [Game1Results]), true, Some(Game1))
  {
    ColdStartAccepted(pathname);
    LinkBeforeMountReplaysWhenFixed(Start, "game1/game1_results", pathname);
  }

  /** The component once the SDK is initialised and no link has arrived:
      the navigator is mounted on Home. */
  const Ready: Host := Host(Start, true, Some(Home))

  /** Mounting with no link yet gives Ready, the start of the callback scenarios. */
  lemma BootMountsOnHome(pathname: UrlPathname)
    ensures Dispatch(Boot, Mount, pathname) == Ready
  {
  }

  /** The link callback the SDK sends for a `/`-prefixed deep-link path. */
  function RootedCallback(): SdkCallback {
    SdkCallback("shortlink_click", Decoded(Some("/game1/game1_results")))
  }

  /** The path the rooted callback carries; used by both callback scenarios. */
  lemma RootedCallbackPath()
    ensures CallbackPath(RootedCallback()) == Some("/game1/game1_results")
  {
    assert IsLinkCallback("shortlink_click");
  }

  /** As written, the SDK callback carrying `/game1/game1_results` changes
      nothing on the mounted component when the URL class has no base: the
      path resolves to no screens. */
  lemma RootedCallbackIgnoredAsWritten()
    ensures Dispatch(Ready, Callback(RootedCallback()), PathnameWithoutBase) == Ready
  {
    RootedCallbackPath();
    RootedPathDroppedAsWritten();
  }

  /** With the path taken as the link itself, the same callback on the
      mounted component stores Game1 as the initial route, which the
      navigator no longer reads, and navigates to Game1Results on top of
      Home. The processing flag is never touched. */
  lemma RootedCallbackOpensAsIntended()
    ensures Dispatch(Ready, Callback(RootedCallback()), PathnameAsPath)
      == Host(LinkState(false, Some(Game1), [], [Game1Results]), true, Some(Home))
  {
    var cb := RootedCallback();
    var accepted := LinkState(false, Some(Game1), [Game1Results], []);
    assert HandleSdkCallback(Start, cb, PathnameAsPath) == accepted && SetsStack(Start, Callback(cb), PathnameAsPath) by {
      RootedCallbackPath();
      RootedPathOpensAsIntended();
    }
    assert Dispatch(Ready, Callback(cb), PathnameAsPath).links == Replay(accepted, true);
    assert Replay(accepted, true) == LinkState(false, Some(Game1), [], [Game1Results]);
  }
}
