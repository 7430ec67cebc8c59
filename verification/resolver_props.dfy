/** Properties of the link-resolution state machine over single events and
    over whole runs of events. */
module ResolverProperties {
  import opened Wrappers
  import opened Routes
  import opened DeepLink
  import opened Resolver

  /** The state at mount is valid. */
  lemma StartValid()
    ensures Valid(Start) && !Start.processing && Start.navigated == []
  {
  }

  /** A live URL event pre-checks the same flag `handleDeepLink` checks, so
      it behaves exactly like calling `handleDeepLink` directly. */
  lemma LiveUrlIsHandleDeepLink(st: LinkState, url: string, pathname: UrlPathname)
    ensures Step(st, UrlEvent(url), pathname) == HandleDeepLink(st, url, pathname)
  {
  }

  /** A truthy cold-start URL is passed to `handleDeepLink`. */
  lemma ColdStartIsHandleDeepLink(st: LinkState, url: string, pathname: UrlPathname)
    requires url != ""
    ensures Step(st, InitialUrl(Some(url)), pathname) == HandleDeepLink(st, url, pathname)
  {
  }

  /** Every SDK callback is passed to `handleSDKCallback`, whatever the
      processing flag says. */
  lemma SdkEventIsHandleSdkCallback(st: LinkState, cb: SdkCallback, pathname: UrlPathname)
    ensures Step(st, SdkEvent(cb), pathname) == HandleSdkCallback(st, cb, pathname)
  {
  }

  /** A run of the replay effect is the replay with the current mount state. */
  lemma ReplayEventIsReplay(st: LinkState, mounted: bool, pathname: UrlPathname)
    ensures Step(st, ReplayEffect(mounted), pathname) == Replay(st, mounted)
  {
  }

  /** A link accepted with the flag clear and naming `routes`: the host starts
      on `routes[0]`, which is never passed to `navigate`; replay on a mounted
      navigator then navigates to exactly `routes[1..]`, in order, and clears
      the flag. With a single route there is nothing to replay, so the flag
      stays set. */
  lemma AcceptedLinkReplay(st: LinkState, url: string, pathname: UrlPathname)
    requires !st.processing
    requires ParseDeepLink(url, pathname) != []
    ensures var routes := ParseDeepLink(url, pathname);
      var accepted := HandleDeepLink(st, url, pathname);
      var replayed := Replay(accepted, true);
      && accepted.processing
      && HostInitialScreen(accepted) == routes[0]
      && accepted.navigated == st.navigated
      && (|routes| > 1 ==>
            && replayed.navigated == st.navigated + routes[1..]
            && !replayed.processing
            && replayed.pending == [])
      && (|routes| == 1 ==> replayed == accepted && replayed.processing)
  {
  }

  /** Replay waits for the navigator: with it unmounted the effect does
      nothing, however often it runs. */
  lemma {:induction false} UnmountedReplayWaits(st: LinkState, n: nat, pathname: UrlPathname)
    ensures Run(st, seq(n, _ => ReplayEffect(false)), pathname) == st
    decreases n
  {
    if n > 0 {
      var events := seq(n, _ => ReplayEffect(false));
      assert events[0] == ReplayEffect(false);
      assert events[1..] == seq(n - 1, _ => ReplayEffect(false));
      UnmountedReplayWaits(st, n - 1, pathname);
    }
  }

  /** Replay happens at most once per pending stack: after it runs, running
      it again (mounted or not) changes nothing. */
  lemma ReplayOnce(st: LinkState, mounted: bool, again: bool)
    requires ReplayEnabled(st, mounted)
    ensures Replay(Replay(st, mounted), again) == Replay(st, mounted)
  {
  }

  /** The flag is set but nothing is pending: no replay can clear it. */
  predicate Blocked(st: LinkState) {
    st.processing && st.pending == []
  }

  /** Events other than SDK callbacks. */
  predicate NoSdkEvents(events: seq<Event>) {
    forall i :: 0 <= i < |events| ==> !events[i].SdkEvent?
  }

  /** A blocked state ignores every cold-start link, live link and replay:
      only an SDK callback, which bypasses the flag, can change it. */
  lemma {:induction false} BlockedIgnoresLinks(st: LinkState, events: seq<Event>, pathname: UrlPathname)
    requires Blocked(st)
    requires NoSdkEvents(events)
    ensures Run(st, events, pathname) == st
    decreases |events|
  {
    if |events| > 0 {
      assert Step(st, events[0], pathname) == st;
      assert NoSdkEvents(events[1..]) by {
        forall i | 0 <= i < |events[1..]|
          ensures !events[1..][i].SdkEvent?
        {
          assert events[1..][i] == events[i + 1];
        }
      }
      BlockedIgnoresLinks(st, events[1..], pathname);
    }
  }

  /** A link naming a single screen leaves the flag set with nothing to
      replay, so every later link is dropped until an SDK callback arrives. */
  lemma SingleRouteLinkBlocks(st: LinkState, url: string, later: seq<Event>, pathname: UrlPathname)
    requires !st.processing
    requires |ParseDeepLink(url, pathname)| == 1
    requires NoSdkEvents(later)
    ensures Blocked(HandleDeepLink(st, url, pathname))
    ensures Run(HandleDeepLink(st, url, pathname), later, pathname) == HandleDeepLink(st, url, pathname)
  {
    BlockedIgnoresLinks(HandleDeepLink(st, url, pathname), later, pathname);
  }

  /** An SDK callback naming at least two screens gives a blocked state
      something to replay, and the replay clears the flag. */
  lemma SdkCallbackUnblocks(st: LinkState, cb: SdkCallback, pathname: UrlPathname)
    requires Blocked(st)
    requires CallbackPath(cb).Some?
    requires |ParseDeepLink(CallbackPath(cb).value, pathname)| > 1
    ensures var routes := ParseDeepLink(CallbackPath(cb).value, pathname);
      var replayed := Replay(HandleSdkCallback(st, cb, pathname), true);
      && !replayed.processing
      && replayed.navigated == st.navigated + routes[1..]
  {
  }

  /** Every event keeps the state valid. */
  lemma StepValid(st: LinkState, e: Event, pathname: UrlPathname)
    requires Valid(st)
    ensures Valid(Step(st, e, pathname))
  {
  }

  /** Every run from a valid state ends valid, so a pending stack always
      comes with an initial route and the replay guard reduces to "something
      pending and mounted". */
  lemma {:induction false} RunValid(st: LinkState, events: seq<Event>, pathname: UrlPathname)
    requires Valid(st)
    ensures Valid(Run(st, events, pathname))
    ensures forall mounted :: ReplayEnabled(Run(st, events, pathname), mounted) <==>
      |Run(st, events, pathname).pending| > 0 && mounted
    decreases |events|
  {
    if |events| > 0 {
      StepValid(st, events[0], pathname);
      RunValid(Step(st, events[0], pathname), events[1..], pathname);
    }
  }

  /** `navigate` calls are only ever added, never withdrawn: the calls
      issued before a run are a prefix of the calls issued after it. */
  lemma {:induction false} RunExtendsNavigation(st: LinkState, events: seq<Event>, pathname: UrlPathname)
    ensures st.navigated <= Run(st, events, pathname).navigated
    decreases |events|
  {
    if |events| > 0 {
      var next := Step(st, events[0], pathname);
      assert st.navigated <= next.navigated;
      RunExtendsNavigation(next, events[1..], pathname);
    }
  }

  /** Only a replay issues `navigate` calls: a run without replay steps
      leaves the calls untouched. */
  lemma {:induction false} NoReplayNoNavigation(st: LinkState, events: seq<Event>, pathname: UrlPathname)
    requires forall i :: 0 <= i < |events| ==> !events[i].ReplayEffect?
    ensures Run(st, events, pathname).navigated == st.navigated
    decreases |events|
  {
    if |events| > 0 {
      var next := Step(st, events[0], pathname);
      assert next.navigated == st.navigated;
      assert forall i :: 0 <= i < |events[1..]| ==> events[1..][i] == events[i + 1];
      NoReplayNoNavigation(next, events[1..], pathname);
    }
  }
}
