/** The root component of src/App.tsx as React schedules it. The stack
    navigator exists only once the SDK is initialised, and it reads
    `initialRouteName` once, when it mounts. The replay effect runs after
    the first render and whenever one of its dependencies (`navigationStack`,
    `initialRoute`) changes: when a handler stores routes (a fresh array
    every time) and when the replay itself empties the stack. It finds a
    non-empty stack only right after a handler stores routes, so only that
    run is modelled. Mounting the navigator is not one of its
    dependencies. */
module Scheduling {
  import opened Wrappers
  import opened Routes
  import opened DeepLink
  import opened Resolver
  import opened ResolverProperties

  /** The link state, whether the navigator is mounted
      (`navigationRef.current` set), and the screen it mounted on. */
  datatype Host = Host(links: LinkState, mounted: bool, start: Option<Screen>)

  /** Before the SDK is initialised: no navigator. */
  const Boot: Host := Host(Start, false, None)

  /** What reaches the component from outside. */
  datatype HostEvent =
    | ColdStart(initial: Option<string>) // `Linking.getInitialURL()` resolved
    | LiveUrl(url: string)               // a live `url` event
    | Callback(cb: SdkCallback)          // an `onSdkCallback` event
    | Mount                              // `isInitialized` became true

  /** The handler call a link event amounts to. */
  function AsEvent(e: HostEvent): (ev: Event)
    requires !e.Mount?
    ensures !ev.ReplayEffect?
  {
    match e
    case ColdStart(initial) => InitialUrl(initial)
    case LiveUrl(url) => UrlEvent(url)
    case Callback(cb) => SdkEvent(cb)
  }

  /** The handler calls `setInitialRoute` and `setNavigationStack`: it acts
      on a link that names at least one screen. */
  predicate SetsStack(st: LinkState, e: HostEvent, pathname: UrlPathname) {
    match e
    case ColdStart(initial) =>
      initial.Some? && initial.value != "" && !st.processing && ParseDeepLink(initial.value, pathname) != []
    case LiveUrl(url) => !st.processing && ParseDeepLink(url, pathname) != []
    case Callback(cb) => CallbackPath(cb).Some? && ParseDeepLink(CallbackPath(cb).value, pathname) != []
    case Mount => false
  }

  /** The free-running events one host event amounts to: the handler, then
      the replay effect when the handler changed its dependencies. */
  function Scheduled(h: Host, e: HostEvent, pathname: UrlPathname): seq<Event>
    requires !e.Mount?
  {
    if SetsStack(h.links, e, pathname) then [AsEvent(e), ReplayEffect(h.mounted)] else [AsEvent(e)]
  }

  /** One host event, as written. Mounting fixes the start screen and
      nothing else; a link event runs its handler and then, when the
      handler stored routes, the replay effect. */
  function Dispatch(h: Host, e: HostEvent, pathname: UrlPathname): (h': Host)
    ensures e.Mount? ==> h'.links == h.links && h'.mounted
    ensures e.Mount? && !h.mounted ==> h'.start == Some(HostInitialScreen(h.links))
    ensures !e.Mount? || h.mounted ==> h'.start == h.start
    ensures !e.Mount? ==> h'.mounted == h.mounted
    ensures !e.Mount? ==> h'.links == Run(h.links, Scheduled(h, e, pathname), pathname)
  {
    match e
    case Mount =>
      if h.mounted then h else h.(mounted := true, start := Some(HostInitialScreen(h.links)))
    case _ =>
      var handled := Step(h.links, AsEvent(e), pathname);
      var events := Scheduled(h, e, pathname);
      assert Run(h.links, events, pathname) == Run(handled, events[1..], pathname);
      if SetsStack(h.links, e, pathname) then
        assert events[1..] == [ReplayEffect(h.mounted)];
        assert Run(handled, events[1..], pathname) == Run(Replay(handled, h.mounted), [], pathname);
        h.(links := Replay(handled, h.mounted))
      else
        h.(links := handled)
  }

  /** The evidently intended scheduling: the replay effect also runs when
      the navigator mounts, as if the navigator's readiness were one of its
      dependencies. Then nothing stays pending once the navigator is
      mounted: whatever was stored before is navigated to, in order. */
  function DispatchReplayingOnMount(h: Host, e: HostEvent, pathname: UrlPathname): (h': Host)
    ensures !e.Mount? ==> h' == Dispatch(h, e, pathname)
    ensures e.Mount? && h.mounted ==> h' == h
    ensures e.Mount? && !h.mounted ==> h'.mounted && h'.start == Some(HostInitialScreen(h.links))
    ensures e.Mount? && !h.mounted && Valid(h.links) ==>
      && h'.links.pending == []
      && h'.links.navigated == h.links.navigated + h.links.pending
      && (|h.links.pending| > 0 ==> !h'.links.processing)
  {
    var d := Dispatch(h, e, pathname);
    if e.Mount? && !h.mounted then d.(links := Replay(h.links, true)) else d
  }

  /** As written, a link accepted before the navigator mounts is never
      replayed. The navigator starts on the first screen, the rest stay
      pending, and the processing flag stays set. From then on every live
      link is dropped. */
  lemma LinkBeforeMountStalls(st: LinkState, url: string, pathname: UrlPathname)
    requires !st.processing && url != ""
    requires |ParseDeepLink(url, pathname)| > 1
    ensures var routes := ParseDeepLink(url, pathname);
      var mounted := Dispatch(Dispatch(Host(st, false, None), ColdStart(Some(url)), pathname), Mount, pathname);
      && mounted.start == Some(routes[0])
      && mounted.links.pending == routes[1..]
      && mounted.links.processing
      && mounted.links.navigated == st.navigated
      && forall later :: Dispatch(mounted, LiveUrl(later), pathname) == mounted
  {
    var routes := ParseDeepLink(url, pathname);
    var h := Host(st, false, None);
    var accepted := Dispatch(h, ColdStart(Some(url)), pathname);
    assert accepted.links == Replay(HandleDeepLink(st, url, pathname), false);
    var mounted := Dispatch(accepted, Mount, pathname);
    forall later
      ensures Dispatch(mounted, LiveUrl(later), pathname) == mounted
    {
      assert !SetsStack(mounted.links, LiveUrl(later), pathname);
    }
  }

  /** With the effect also run at mount, the same link is replayed once the
      navigator mounts: it starts on the first screen, navigates to the rest
      in order, and clears the flag. */
  lemma LinkBeforeMountReplaysWhenFixed(st: LinkState, url: string, pathname: UrlPathname)
    requires !st.processing && url != ""
    requires |ParseDeepLink(url, pathname)| > 1
    ensures var routes := ParseDeepLink(url, pathname);
      var fixed := DispatchReplayingOnMount(
        DispatchReplayingOnMount(Host(st, false, None), ColdStart(Some(url)), pathname), Mount, pathname);
      && fixed.start == Some(routes[0])
      && fixed.links.pending == []
      && !fixed.links.processing
      && fixed.links.navigated == st.navigated + routes[1..]
  {
    var h := Host(st, false, None);
    var accepted := DispatchReplayingOnMount(h, ColdStart(Some(url)), pathname);
    assert accepted.links == Replay(HandleDeepLink(st, url, pathname), false);
  }

  /** A link accepted while the navigator is mounted is replayed at once,
      but its first screen is never shown: the navigator keeps the screen it
      mounted on, and only the screens after the first are navigated to.
      A one-screen link navigates nowhere and leaves the flag set. */
  lemma LinkAfterMountSkipsFirst(h: Host, url: string, pathname: UrlPathname)
    requires h.mounted && !h.links.processing
    requires ParseDeepLink(url, pathname) != []
    ensures var routes := ParseDeepLink(url, pathname);
      var h' := Dispatch(h, LiveUrl(url), pathname);
      && h'.start == h.start
      && h'.links.navigated == h.links.navigated + routes[1..]
      && h'.links.pending == []
      && (h'.links.processing <==> |routes| == 1)
  {
    var routes := ParseDeepLink(url, pathname);
    var handled := HandleDeepLink(h.links, url, pathname);
    assert Dispatch(h, LiveUrl(url), pathname).links == Replay(handled, true);
    if |routes| == 1 {
      assert routes[1..] == [];
    }
  }

  /** Every host event keeps the link state valid, since it is a run of the
      free-running model. */
  lemma DispatchValid(h: Host, e: HostEvent, pathname: UrlPathname)
    requires Valid(h.links)
    ensures Valid(Dispatch(h, e, pathname).links)
  {
    if !e.Mount? {
      RunValid(h.links, Scheduled(h, e, pathname), pathname);
    }
  }
}
