# Deep-link resolution of the inhouse React Native demo, in Dafny

This project models the deep-link core of the demo app (a React Native app
written in TypeScript) and proves properties of it. The core has four parts:

- **`parseDeepLink`** (src/App.tsx) turns a raw link into an ordered list of
  screens. It extracts a path from the link in one of three ways:
  - the text between the first `://` and the next one, or the end;
  - a bare path with `/` prefixed;
  - for a link that starts with `/`, the `pathname` of `new URL(link)`.

  It then splits the path on `/`, drops empty pieces and looks each piece up
  in the twelve-entry route table. A root path with no match opens Home, and
  any exception gives no screens. Modelled in `deeplink.dfy`, over the
  JavaScript string primitives in `strings.dfy` and the screens and route
  table in `routes.dfy`.
- **The link-resolution state of the root component** (src/App.tsx) is
  modelled in `resolver.dfy`, with properties in `resolver_props.dfy`. It
  consists of:
  - the processing flag;
  - the initial route handed to the stack navigator;
  - the pending navigation stack;
  - the `navigate` calls issued so far.

  It changes through `handleDeepLink`, `handleSDKCallback` and the effect
  that replays the pending stack. Each handler is a pure step function on an
  immutable state. In `resolver.dfy` the replay effect is a step the
  environment may take whenever it likes, with "the navigator is mounted" as
  its input. `scheduling.dfy` then fixes when React runs it. The
  effect finds a non-empty stack only right after a handler stores routes. The
  navigator mounts once, when `isInitialized` turns true, and reads
  `initialRouteName` only then.
- **The callback-listener bookkeeping of `TrackingSDKManager`**
  (src/TrackingSDK.ts) is modelled in `listeners.dfy`. Each `remove()` call
  on a subscription is recorded in a log.
- **The score and level messages of the two results screens** are modelled
  in `game1_results.dfy` and `game2_results.dfy`.

`deeplink_examples.dfy` and `scenarios.dfy` state what the model gives on
concrete links and event sequences. `routemap_lookup.dfy` models the route-table lookup
exactly as JavaScript evaluates it (see Findings). `effects.dfy` records a
`forEach` of host calls as a log, and `wrappers.dfy` holds `Option`.

## Model

| member | source | states |
|---|---|---|
| Routes.RouteTableInverse | src/App.tsx:214-227 | A segment finds a screen exactly when it is that screen's key. So every one of the twelve screens has exactly one key, and lookup is exact and case-sensitive. |
| Routes.KeyFound | src/App.tsx:214-227 | Looking up a screen's key finds that screen. |
| Routes.FoundIsKey | src/App.tsx:214-227 | A segment that finds a screen is the key of that screen. |
| Routes.KeysHaveNoSlash | src/App.tsx:214-227 | Every key is non-empty and has no `/`, so each key can stand as one path segment. |
| Routes.KeysHaveNoColon | src/App.tsx:214-227 | No key has a `:`, so a path built from keys never contains `://`. |
| Routes.RouteOf | src/App.tsx:233 | The lookup hits only for a non-empty segment. |
| Strings.IndexOf | src/App.tsx:187 | The result is the first position where the pattern occurs, or none when it occurs nowhere. `includes` is "the first position exists". |
| Strings.Split | src/App.tsx:188 | `split` always gives at least one piece, and more than one exactly when the separator occurs. |
| Strings.JoinSplit | src/App.tsx:188 | Joining the pieces of a split with the separator gives the original string back. |
| Strings.SplitJoin | src/App.tsx:208-209 | Splitting on `/` a join of `/`-free pieces gives the pieces back. |
| Strings.SplitPiecesFree | src/App.tsx:188 | No piece of a split contains the separator. |
| Strings.NonEmpty | src/App.tsx:210 | The filter keeps only non-empty pieces and never lengthens the list. |
| Strings.NonEmptyAppend | src/App.tsx:210 | Filtering a concatenation filters each part: the kept pieces are those of the first part followed by those of the second. |
| Strings.NonEmptyOne | src/App.tsx:210 | A single piece is kept exactly when it is non-empty. |
| Strings.NonEmptyOfNonEmpty | src/App.tsx:210 | The filter keeps a list of non-empty pieces whole and drops a leading empty piece. |
| DeepLink.ExtractPath | src/App.tsx:184-203 | With `://` present, the path is `/` followed by everything after the first `://` up to the next `://` or the end. Without it, a link not starting with `/` gets `/` prefixed, and a link starting with `/` yields whatever the URL class yields. |
| DeepLink.SchemePath | src/App.tsx:187-193 | With no other `://`, `scheme://rest` has the path `/rest`: the scheme is dropped and the host stays as an ordinary segment. |
| DeepLink.SchemeIgnored | src/App.tsx:187-198 | A bare path and the same path behind any scheme open the same screens. |
| DeepLink.Segments | src/App.tsx:208-210 | Every segment is non-empty and has no `/`. |
| DeepLink.SegmentsOfPieces | src/App.tsx:208-210 | The segments of `/`-free pieces joined with `/` are exactly the non-empty pieces, in order. So doubled, leading and trailing `/` add nothing. |
| DeepLink.TrailingSlashIgnored | src/App.tsx:208-210 | A trailing `/` does not change the segments of a path. |
| DeepLink.ParseIgnoresTrailingSlash | src/App.tsx:179-250 | `scheme://rest/` opens the same screens as `scheme://rest` when `rest` is non-empty. |
| DeepLink.SegmentsOfRooted | src/App.tsx:208-210 | Segmenting `/seg1/.../segN` gives exactly `seg1 … segN` back. |
| DeepLink.RootHasNoSegments | src/App.tsx:208-210 | `/` and the empty path have no segments. |
| DeepLink.MatchRoutes | src/App.tsx:230-237 | The matched list is never longer than the segment list. |
| DeepLink.MatchRoutesCount | src/App.tsx:230-237 | Each screen occurs in the result exactly as often as its key occurs among the segments. Nothing is deduplicated and only keys yield screens. |
| DeepLink.MatchRoutesAppend | src/App.tsx:232-237 | Matching distributes over concatenation, so the screens come out in segment order. |
| DeepLink.ParseDeepLink | src/App.tsx:179-250 | A failed path extraction gives no screens. A root path gives `[Home]`. Any other path gives the matched screens of its segments, possibly none. |
| DeepLink.ParseBarePath | src/App.tsx:194-197 | A bare `seg1/.../segN` opens exactly the matched screens of those segments. |
| DeepLink.ParseSchemePath | src/App.tsx:187-193 | `scheme://seg1/.../segN` opens the matched screens of the segments, and `scheme://` alone opens Home. |
| DeepLink.MatchKeys | src/App.tsx:214-237 | Matching the keys of any list of screens gives that list back, repeats and order included. |
| DeepLink.LinkRoundTrip | src/App.tsx:179-250 | Parsing inverts link building: the bare link to any non-empty list of screens opens exactly those screens. |
| DeepLink.SchemeLinkRoundTrip | src/App.tsx:179-250 | The same behind any scheme; with no screens, the bare scheme opens Home. |
| DeepLink.RootedPathResolvesLikeBare | src/App.tsx:199-201 | With the path taken as the link itself, `/rest` opens the same screens as `rest`. |
| DeepLinkExamples.EmptyLinkOpensHome | src/App.tsx:194-197 | `""` opens `[Home]`. |
| DeepLinkExamples.BareSchemeOpensHome | src/App.tsx:239-242 | `myapp://` opens `[Home]`. |
| DeepLinkExamples.SchemeSlashOpensNothing | src/App.tsx:239-245 | `myapp:///` has the path `//`. That path has no segments but is not a root path, so the link opens nothing. |
| DeepLinkExamples.BarePathOpensEachSegment | src/App.tsx:194-197 | `game1/game1_results` opens `[Game1, Game1Results]`. |
| DeepLinkExamples.SchemeDropped | src/App.tsx:187-193 | `x://game1/game1_results` opens `[Game1, Game1Results]`. |
| DeepLinkExamples.QueryNotStripped | src/App.tsx:187-193 | The query is not stripped: `myapp://game2/about?x=1` opens only `[Game2]`. |
| DeepLinkExamples.TrailingSlashDropped | src/App.tsx:208-210 | `myapp://game1/` opens `[Game1]`. |
| DeepLinkExamples.RepeatsKept | src/App.tsx:232-237 | `myapp://about/game1/about` opens `[About, Game1, About]`. The host is a segment, repeats are kept, and Home is not added. |
| DeepLinkExamples.CaseSensitive | src/App.tsx:233 | `Game1` opens nothing. |
| DeepLinkExamples.ThrowingUrlOpensNothing | src/App.tsx:199-201 | When the URL class throws on a link starting with `/`, the exception gives no screens. |
| DeepLinkExamples.RootedPathDroppedAsWritten | src/App.tsx:199-201 | As written, `/game1/game1_results` opens nothing when the URL class has no base, while `game1/game1_results` opens both screens. |
| DeepLinkExamples.RootedPathOpensAsIntended | src/App.tsx:199-201 | With the path taken as the link, `/game1/game1_results` opens `[Game1, Game1Results]`. |
| RouteMapLookup.LookupAsWritten | src/App.tsx:233 | Evaluated in JavaScript, the lookup hits on the twelve keys and also on every name inherited from `Object.prototype`. It misses on anything else. |
| RouteMapLookup.MatchAsWritten | src/App.tsx:232-237 | The loop as written pushes at most one value per segment, and each value is a screen or an inherited `Object.prototype` name. |
| RouteMapLookup.AsWrittenAgreesOffPrototype | src/App.tsx:232-237 | On segments that avoid the inherited names, the loop as written pushes exactly the screens the table matches. |
| RouteMapLookup.ConstructorSegmentAsWritten | src/App.tsx:232-237 | The segment `constructor` pushes a value that is not a screen, although the table matches nothing. |
| Resolver.HostInitialScreen | src/App.tsx:266 | The component hands the navigator `initialRouteName`: the initial route, or Home when none is set. |
| Resolver.HandleDeepLink | src/App.tsx:136-156 | With the flag set, nothing changes. With it clear, an unparseable or unmatched link changes nothing, and a matching link sets the flag, stores its first screen as the initial route and the rest as the pending stack. The flag afterwards is set exactly when it was set before or the link named a screen. No `navigate` call is issued, and a pending stack always comes with an initial route. |
| Resolver.CallbackPath | src/App.tsx:159-166 | A path is acted on exactly when the callback type is `shortlink_click` or `app_install_from_shortlink`, the data decoded, and `deeplink_path` is present and non-empty. |
| Resolver.HandleSdkCallback | src/App.tsx:158-177 | The flag is neither read nor written, and no `navigate` call is issued. A callback without a usable path, or whose path names no screen, changes nothing. Otherwise the first screen becomes the initial route and the rest the pending stack, whatever was there before. |
| Resolver.Step | src/App.tsx:108-127 | A missing or empty cold-start URL is ignored, and a live URL is ignored while the flag is set. No event except the replay effect issues a `navigate` call. What each event does otherwise is stated by LiveUrlIsHandleDeepLink, ColdStartIsHandleDeepLink, SdkEventIsHandleSdkCallback and ReplayEventIsReplay. |
| Resolver.Replay | src/App.tsx:63-83 | When not enabled (empty stack, navigator not mounted, or no initial route), nothing changes. When enabled, it empties the stack, appends exactly the pending screens in order to the `navigate` calls, clears the flag, and keeps the initial route. |
| ResolverProperties.LiveUrlIsHandleDeepLink | src/App.tsx:115-120 | A live URL event behaves exactly like `handleDeepLink`: the pre-check tests the same flag. |
| ResolverProperties.ColdStartIsHandleDeepLink | src/App.tsx:108-111 | A truthy cold-start URL behaves exactly like calling `handleDeepLink` with it. |
| ResolverProperties.SdkEventIsHandleSdkCallback | src/App.tsx:123-127 | Every SDK callback behaves exactly like calling `handleSDKCallback`, with no check of the processing flag. |
| ResolverProperties.ReplayEventIsReplay | src/App.tsx:63-83 | A run of the replay effect is the replay with the current mount state. |
| ResolverProperties.AcceptedLinkReplay | src/App.tsx:63-83 | An accepted link hands the navigator `initialRouteName` `routes[0]` without navigating to it. The replay then navigates to exactly `routes[1..]`, in order, and clears the flag. A one-screen link leaves the flag set. |
| ResolverProperties.UnmountedReplayWaits | src/App.tsx:64 | With the navigator unmounted, any number of replay steps changes nothing. |
| ResolverProperties.ReplayOnce | src/App.tsx:67-69 | A pending stack is replayed at most once: a second replay changes nothing. |
| ResolverProperties.BlockedIgnoresLinks | src/App.tsx:115-120 | With the flag set and nothing pending, every cold-start link, live link and replay leaves the state unchanged. |
| ResolverProperties.SingleRouteLinkBlocks | src/App.tsx:147-151 | A link naming one screen leaves the flag set with nothing to replay, so every later link is dropped. |
| ResolverProperties.SdkCallbackUnblocks | src/App.tsx:167-171 | An SDK callback naming two or more screens gives a blocked state something to replay, and that replay clears the flag. |
| ResolverProperties.StepValid | src/App.tsx:150-151 | Every event keeps "a pending stack implies an initial route". |
| ResolverProperties.RunValid | src/App.tsx:64 | Along any run, the replay guard's initial-route test is implied by the other two tests. |
| ResolverProperties.RunExtendsNavigation | src/App.tsx:73-76 | `navigate` calls are only ever appended: the calls before a run are a prefix of the calls after it. |
| ResolverProperties.NoReplayNoNavigation | src/App.tsx:72-81 | Only the replay effect issues `navigate` calls. |
| Scheduling.Dispatch | src/App.tsx:63-83 | One event as React schedules it. Mounting fixes the start screen once and changes no link state. A link event is exactly a run of the free-running model: the handler, then the replay effect with the current mount state exactly when the handler stored routes. |
| Scheduling.DispatchReplayingOnMount | src/App.tsx:63-83 | With the corrected scheduling, a link event behaves as written. At mount the navigator starts on the stored initial route and nothing stays pending: every screen stored before mount is navigated to, in order, and a non-empty stack clears the flag. A second mount changes nothing. |
| Scheduling.LinkBeforeMountStalls | src/App.tsx:63-83 | As written, a link of two or more screens accepted before mount is never replayed. The navigator mounts on the first screen, the rest stay pending, the flag stays set and every later live link is dropped. |
| Scheduling.LinkBeforeMountReplaysWhenFixed | src/App.tsx:63-83 | With the replay also run at mount, the same link mounts on the first screen, navigates to the rest in order and clears the flag. |
| Scheduling.LinkAfterMountSkipsFirst | src/App.tsx:63-83 | A link accepted while mounted never shows its first screen. The start screen is unchanged, exactly the later screens are navigated to, and the flag stays set exactly for a one-screen link. |
| Scheduling.DispatchValid | src/App.tsx:150-151 | Every scheduled event keeps "a pending stack implies an initial route". |
| Scenarios.ColdStartAccepted | src/App.tsx:108-112 | The cold-start `game1/game1_results` sets the flag, the initial route Game1 and the pending stack `[Game1Results]`. |
| Scenarios.ColdStartBeforeMountStalls | src/App.tsx:63-83 | As written, after that cold start and then mount, the navigator shows Game1, Game1Results stays pending, and `myapp://game2` is dropped. |
| Scenarios.ColdStartBeforeMountReplaysWhenFixed | src/App.tsx:63-83 | With the replay also run at mount, the same cold start navigates once to Game1Results and clears the flag. |
| Scenarios.RootedCallbackIgnoredAsWritten | src/App.tsx:164-171 | As written, an SDK callback with `deeplink_path` `/game1/game1_results` leaves the mounted component unchanged, replay included. |
| Scenarios.RootedCallbackOpensAsIntended | src/App.tsx:164-171 | With the path taken as the link, the same callback on the mounted component stores Game1 as an initial route the navigator no longer reads, navigates to Game1Results on top of Home, and never sets the flag. |
| Effects.ForEach | src/App.tsx:73-76 | One call per item, in item order, appended to the log. |
| Listeners.IndexOf | src/TrackingSDK.ts:103 | The result is the first index holding the subscription, or -1 exactly when it is absent. |
| Listeners.AddCallbackListener | src/TrackingSDK.ts:90-99 | The new subscription is appended to the list and returned. No `remove()` is called. |
| Listeners.DeleteAt | src/TrackingSDK.ts:105 | `splice(i, 1)` removes one copy of the element at `i`. The elements before `i` stay where they are, and those after it move down one place in order. |
| Listeners.RemoveCallbackListener | src/TrackingSDK.ts:101-107 | `remove()` is always called on the argument. If the subscription is absent, the list is unchanged. Otherwise its first occurrence is deleted and the others keep their order. |
| Listeners.RemoveAllListeners | src/TrackingSDK.ts:109-112 | `remove()` is called on every registered subscription in list order, and the list ends empty. |
| Listeners.AddThenRemoveRestores | src/TrackingSDK.ts:97-106 | Adding a fresh subscription and then removing it restores the list; one `remove()` call is logged. |
| Listeners.AddThenRemoveReorders | src/TrackingSDK.ts:97-106 | Adding a subscription already registered earlier and then removing it deletes the earlier copy, so the list comes back reordered. The manager itself never registers a subscription twice. |
| Listeners.AddAllThenRemoveAll | src/TrackingSDK.ts:90-112 | After any number of additions, removing all calls `remove()` on every subscription once, in the order they were added. |
| Game1Results.ScoreOrDefault | src/screens/Game1ResultsScreen.tsx:21 | The score shown is the score parameter, or 0 when it is missing. |
| Game1Results.ScoreMessage | src/screens/Game1ResultsScreen.tsx:46-51 | Each message is shown exactly in its band: from 100 up, 50-99, 20-49, and below 20. |
| Game1Results.ScoreMessageMonotone | src/screens/Game1ResultsScreen.tsx:46-51 | Exactly one of the four messages is shown, and a higher score never shows a lower tier. |
| Game1Results.MissingScoreLowestTier | src/screens/Game1ResultsScreen.tsx:21 | Without a score, the lowest-tier message is shown. |
| Game2Results.LevelOrDefault | src/screens/Game2ResultsScreen.tsx:21 | The level shown is never 0. A missing level and level 0 both read as 1, and any other level is kept. |
| Game2Results.LevelMessage | src/screens/Game2ResultsScreen.tsx:46-51 | Each message is shown exactly in its band: from 10 up, 5-9, 3-4, and below 3. |
| Game2Results.LevelMessageMonotone | src/screens/Game2ResultsScreen.tsx:46-51 | Exactly one of the four messages is shown, and a higher level never shows a lower tier. |
| Game2Results.MissingLevelLowestTier | src/screens/Game2ResultsScreen.tsx:21 | Without a level, level 1 and the lowest-tier message are shown. |

### Behaviour of src/App.tsx that the model keeps

- Matched screens are not deduplicated, and Home is not put in front.
- The query string and fragment are not stripped.
- An exception gives `[]`, not `[Home]`.
- The replay navigates synchronously, with no delays, and only to the
  screens after the first. The first reaches the navigator only as
  `initialRouteName`, which it reads when it mounts.

## Left out

- `new URL(link).pathname` is a parameter of the model, `UrlPathname`, where `None` means the constructor throws. The model does not contain the URL parser of the JavaScript runtime.
- `JSON.parse` of SDK callback data is not modelled. The payload arrives decoded, as `Malformed` or as the optional `deeplink_path`, and a non-string `deeplink_path` is not represented.
- The `Linking` and SDK event sources, and the order in which their events arrive, are not modelled. A run is an arbitrary sequence of events.
- React batching is not modelled. Each event is its own render, so a link stored in the same render that mounts the navigator is not represented.
- Resolver.HostInitialScreen: states the route handed to the navigator, not what it shows. The navigator reads it only at mount (`Scheduling.Host.start`), so a link accepted after mount never shows its first screen.
- ResolverProperties.AcceptedLinkReplay: states the replay when the effect runs on a mounted navigator. React runs it only right after a handler stores routes. A link accepted before mount is never replayed (`Scheduling.LinkBeforeMountStalls`), and one accepted after mount never shows its first screen (`Scheduling.LinkAfterMountSkipsFirst`).
- Scenarios.RootedCallbackOpensAsIntended: states the callback on a mounted navigator only. Before mount it stays pending like any other link (`Scheduling.LinkBeforeMountStalls`).
- The subscription cleanup returned by `setupDeepLinking` is not modelled, because its value is discarded where it is called.
- `initializeTrackingSDK` is not modelled beyond the moment it sets `isInitialized`, which is the `Mount` event of `scheduling.dfy`. The SDK start-up itself is a foreign call.
- All `console` logging is left out.
- The native pass-through methods of `TrackingSDKManager` and its event emitter are left out. They are foreign calls; a subscription is an opaque number.
- Rendering, styles and every other screen are left out, because they are UI.
- Strings are sequences of characters, not JavaScript UTF-16 code units. Results are unaffected, because every separator (`://`, `/`) and every route key is ASCII.
- Scores and levels are integers. JavaScript `NaN` and fractional values are not modelled.
- DeepLink.MatchRoutes: the model's lookup uses only the twelve own keys of the table. The inherited `Object.prototype` names are modelled separately in `RouteMapLookup` (see Findings).

## Findings

| source | as written | input that shows it | evidently intended | confidence | as-written member | corrected member |
|---|---|---|---|---|---|---|
| src/App.tsx:199-201 | A link starting with `/` is passed to `new URL(link)` with no base. Under the WHATWG URL Standard, such a string has no scheme, so the basic URL parser fails and the constructor throws. The exception handler then returns `[]`. | `/game1/game1_results`, e.g. as the `deeplink_path` of a `shortlink_click` callback | the path is the link itself, as in the other two branches, giving `[Game1, Game1Results]` | medium: depends on the runtime's URL class; not executed | DeepLinkExamples.RootedPathDroppedAsWritten | DeepLink.RootedPathResolvesLikeBare |
| src/App.tsx:214-237 | `routeMap[segment]` on an object literal also finds the truthy names inherited from `Object.prototype`. The loop pushes those, which are not screens. | `myapp://constructor` (segment `constructor`) | only the twelve own keys match, so the link opens nothing | high: standard JavaScript property lookup; not executed | RouteMapLookup.ConstructorSegmentAsWritten | DeepLink.MatchRoutesCount |
| src/App.tsx:63-83 | The replay effect depends only on `navigationStack` and `initialRoute`. The navigator is rendered only once `isInitialized` is true (line 252), and mounting it does not re-run the effect. | a cold-start `game1/game1_results` whose `getInitialURL` resolves before the SDK finishes initialising | the pending stack is replayed once the navigator mounts, giving Game1 then Game1Results and a cleared flag | medium: depends on the initial URL resolving before SDK initialisation; not executed | Scenarios.ColdStartBeforeMountStalls | Scheduling.LinkBeforeMountReplaysWhenFixed |
