/** The link-resolution state of the root component in src/App.tsx: the
    processing flag, the initial route, the pending navigation stack, and the
    `navigate` calls issued to the navigation host. Each event handler is a
    step function on an immutable state; the replay effect is a step the
    environment may take whenever it likes. */
module Resolver {
  import opened Wrappers
  import opened Routes
  import opened DeepLink
  import opened Effects

  /** The state the handlers read and write. */
  datatype LinkState = LinkState(
    processing: bool,            // `isProcessingRef.current`
    initialRoute: Option<Screen>, // `initialRoute` (null is `None`)
    pending: seq<Screen>,        // `navigationStack`
    navigated: seq<Screen>)      // every `navigate(route)` issued, in order

  /** The state at mount: nothing in flight, nothing pending, nothing issued. */
  const Start: LinkState := LinkState(false, None, [], [])

  /** The screen the stack navigator is told to start on:
      `initialRouteName={initialRoute || 'Home'}`. */
  function HostInitialScreen(st: LinkState): (s: Screen)
    ensures st.initialRoute.None? ==> s == Home
    ensures st.initialRoute.Some? ==> s == st.initialRoute.value
  {
    st.initialRoute.GetOr(Home)
  }

  /** Every pending stack comes with an initial route: the two are always set
      together and only the stack is ever cleared. */
  ghost predicate Valid(st: LinkState) {
    |st.pending| > 0 ==> st.initialRoute.Some?
  }

  /** `handleDeepLink(url)`. While a link is being processed the call does
      nothing. Otherwise it sets the flag and, when the link names screens,
      stores the first as the initial route and the rest as the pending
      stack; when it names none it clears the flag again. */
  function HandleDeepLink(st: LinkState, url: string, pathname: UrlPathname): (st': LinkState)
    ensures st'.navigated == st.navigated
    ensures st.processing ==> st' == st
    ensures !st.processing && ParseDeepLink(url, pathname) == [] ==> st' == st
    ensures st'.processing <==> st.processing || ParseDeepLink(url, pathname) != []
    ensures !st.processing && ParseDeepLink(url, pathname) != [] ==>
      var routes := ParseDeepLink(url, pathname);
      st' == st.(processing := true, initialRoute := Some(routes[0]), pending := routes[1..])
    ensures Valid(st) ==> Valid(st')
  {
    if st.processing then st
    else
      var routes := ParseDeepLink(url, pathname);
      if |routes| > 0 then
        st.(processing := true, initialRoute := Some(routes[0]), pending := routes[1..])
      else
        st.(processing := false)
  }

  /** The payload of an SDK callback after `JSON.parse(data.data)`:
      `Malformed` when parsing throws, otherwise `link.deeplink_path` when
      `link` and the path are present. */
  datatype SdkPayload = Malformed | Decoded(deeplinkPath: Option<string>)

  /** A `TrackingSDKCallback` with its data already decoded. */
  datatype SdkCallback = SdkCallback(callbackType: string, payload: SdkPayload)

  /** The two callback types that carry a link. */
  predicate IsLinkCallback(callbackType: string) {
    callbackType == "shortlink_click" || callbackType == "app_install_from_shortlink"
  }

  /** The deep-link path the callback acts on: present only for a link
      callback whose payload decoded and whose path is truthy (non-empty). */
  function CallbackPath(cb: SdkCallback): (path: Option<string>)
    ensures path.Some? <==>
      && IsLinkCallback(cb.callbackType)
      && cb.payload.Decoded?
      && cb.payload.deeplinkPath.Some?
      && cb.payload.deeplinkPath.value != ""
    ensures path.Some? ==> path == cb.payload.deeplinkPath
  {
    if !IsLinkCallback(cb.callbackType) then None
    else match cb.payload
      case Malformed => None
      case Decoded(p) =>
        if p.Some? && p.value != "" then p else None
  }

  /** `handleSDKCallback(data)`. A link callback whose path names screens sets
      the initial route and the pending stack as `handleDeepLink` does; it
      neither reads nor writes the processing flag. Anything else is
      ignored. */
  function HandleSdkCallback(st: LinkState, cb: SdkCallback, pathname: UrlPathname): (st': LinkState)
    ensures st'.processing == st.processing
    ensures st'.navigated == st.navigated
    ensures CallbackPath(cb).None? ==> st' == st
    ensures CallbackPath(cb).Some? ==>
      var routes := ParseDeepLink(CallbackPath(cb).value, pathname);
      && (routes == [] ==> st' == st)
      && (routes != [] ==> st' == st.(initialRoute := Some(routes[0]), pending := routes[1..]))
    ensures Valid(st) ==> Valid(st')
  {
    match CallbackPath(cb)
    case None => st
    case Some(path) =>
      var routes := ParseDeepLink(path, pathname);
      if |routes| > 0 then
        st.(initialRoute := Some(routes[0]), pending := routes[1..])
      else
        st
  }

  /** The guard of the replay effect: a pending stack, a mounted navigator
      (`navigationRef.current`) and an initial route. */
  predicate ReplayEnabled(st: LinkState, mounted: bool) {
    |st.pending| > 0 && mounted && st.initialRoute.Some?
  }

  /** The replay effect. When enabled it empties the pending stack, issues
      one `navigate` per pending screen in order, and clears the flag;
      otherwise it does nothing. */
  function Replay(st: LinkState, mounted: bool): (st': LinkState)
    ensures !ReplayEnabled(st, mounted) ==> st' == st
    ensures ReplayEnabled(st, mounted) ==>
      && st'.pending == []
      && !st'.processing
      && st'.initialRoute == st.initialRoute
      && st'.navigated == st.navigated + st.pending
    ensures Valid(st) ==> Valid(st')
  {
    if ReplayEnabled(st, mounted) then
      var current := st.pending;
      var cleared := st.(pending := []);
      cleared.(navigated := ForEach(cleared.navigated, current), processing := false)
    else
      st
  }

  /** The events the component reacts to. */
  datatype Event =
    | InitialUrl(initial: Option<string>) // `Linking.getInitialURL()` resolved
    | UrlEvent(url: string)            // a live `url` event
    | SdkEvent(cb: SdkCallback)        // an `onSdkCallback` event
    | ReplayEffect(mounted: bool)      // the replay effect runs

  /** One event. The cold-start URL is handled when it is truthy; a live URL
      is handled when the flag is clear. */
  function Step(st: LinkState, e: Event, pathname: UrlPathname): (r: LinkState)
    ensures e.InitialUrl? && (e.initial.None? || e.initial.value == "") ==> r == st
    ensures e.UrlEvent? && st.processing ==> r == st
    ensures !e.ReplayEffect? ==> r.navigated == st.navigated
  {
    match e
    case InitialUrl(initial) =>
      if initial.Some? && initial.value != "" then HandleDeepLink(st, initial.value, pathname) else st
    case UrlEvent(url) =>
      if !st.processing then HandleDeepLink(st, url, pathname) else st
    case SdkEvent(cb) => HandleSdkCallback(st, cb, pathname)
    case ReplayEffect(mounted) => Replay(st, mounted)
  }

  /** A sequence of events, in order. */
  function Run(st: LinkState, events: seq<Event>, pathname: UrlPathname): LinkState
    decreases |events|
  {
    if |events| == 0 then st
    else Run(Step(st, events[0], pathname), events[1..], pathname)
  }
}
