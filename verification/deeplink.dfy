/** `parseDeepLink` of src/App.tsx: a total function from a raw link to the
    ordered list of screens its path names. */
module DeepLink {
  import opened Wrappers
  import opened Strings
  import opened Routes

  /** `new URL(url).pathname`, a call into the JavaScript runtime: `Some` of
      the pathname, or `None` when the constructor (or the getter) throws. */
  type UrlPathname = string -> Option<string>

  /** The separator between a custom scheme and the rest of the link. */
  const SchemeSeparator: string := "://"

  /** The path the parser works on, or `None` when extracting it throws.
      With `://` present the path is `/` followed by the text between the
      first and the second `://` (the scheme is dropped and the host is kept
      as an ordinary segment); a bare string not starting with `/` gets a `/`
      prefixed; only a string starting with `/` is handed to the URL class. */
  function ExtractPath(url: string, pathname: UrlPathname): (r: Option<string>)
    ensures Contains(url, SchemeSeparator) ==>
      var i := IndexOf(url, SchemeSeparator).value;
      var rest := url[i + |SchemeSeparator|..];
      && r.Some? && StartsWith(r.value, '/')
      && r.value[1..] <= rest
      && !Contains(r.value[1..], SchemeSeparator)
      && (r.value[1..] == rest || OccursAt(rest, SchemeSeparator, |r.value| - 1))
    ensures !Contains(url, SchemeSeparator) && !StartsWith(url, '/') ==> r == Some("/" + url)
    ensures !Contains(url, SchemeSeparator) && StartsWith(url, '/') ==> r == pathname(url)
  {
    if Contains(url, SchemeSeparator) then
      var parts := Split(url, SchemeSeparator);
      SecondPiece(url, SchemeSeparator);
      assert ("/" + parts[1])[1..] == parts[1];
      Some("/" + parts[1])
    else if !StartsWith(url, '/') then
      Some("/" + url)
    else
      pathname(url)
  }

  /** The second piece of a split is the text after the first separator, up
      to the next separator or the end. */
  lemma SecondPiece(s: string, sep: string)
    requires |sep| > 0
    requires Contains(s, sep)
    ensures var i := IndexOf(s, sep).value;
      var rest := s[i + |sep|..];
      var second := Split(s, sep)[1];
      && second <= rest
      && !Contains(second, sep)
      && (second == rest || OccursAt(rest, sep, |second|))
  {
    var i := IndexOf(s, sep).value;
    var rest := s[i + |sep|..];
    SplitAt(s, sep, i);
    FirstPiece(rest, sep);
  }

  /** The first piece of a split is everything when the separator is absent,
      and otherwise the text before its first occurrence. */
  lemma FirstPiece(s: string, sep: string)
    requires |sep| > 0
    ensures Split(s, sep)[0] <= s
    ensures Split(s, sep)[0] == s || OccursAt(s, sep, |Split(s, sep)[0]|)
    ensures !Contains(Split(s, sep)[0], sep)
  {
    match IndexOf(s, sep)
    case None =>
      SplitNone(s, sep);
    case Some(i) =>
      SplitAt(s, sep, i);
      HeadFree(s, sep, i);
  }

  /** The non-empty `/`-separated segments of a path; none of them holds a
      `/`. */
  function Segments(path: string): (r: seq<string>)
    ensures forall i :: 0 <= i < |r| ==> IsSegment(r[i])
  {
    var parts := Split(path, "/");
    SplitPiecesFree(path, "/");
    NonEmptyKeeps(parts, "/");
    var r := NonEmpty(parts);
    forall i | 0 <= i < |r|
      ensures IsSegment(r[i])
    {
      NotContainsFree(r[i], '/');
    }
    r
  }

  /** Filtering out empty pieces keeps only pieces of the input. */
  lemma {:induction false} NonEmptyKeeps(parts: seq<string>, sep: string)
    requires |sep| > 0
    requires forall i :: 0 <= i < |parts| ==> !Contains(parts[i], sep)
    ensures forall i :: 0 <= i < |NonEmpty(parts)| ==> !Contains(NonEmpty(parts)[i], sep)
    decreases |parts|
  {
    if |parts| > 0 {
      NonEmptyKeeps(parts[1..], sep);
    }
  }

  /** The table image of one segment: its screen, or nothing for a miss. */
  function ImageOf(segment: string): seq<Screen> {
    match RouteOf(segment)
    case Some(screen) => [screen]
    case None => []
  }

  /** A segment contributes one occurrence of a screen exactly when it is
      that screen's key. */
  lemma ImageCount(segment: string, s: Screen)
    ensures multiset(ImageOf(segment))[s] == multiset([segment])[SegmentOf(s)]
  {
    RouteTableInverse(segment, s);
    match RouteOf(segment)
    case Some(screen) =>
      RouteTableInverse(segment, screen);
    case None =>
  }

  /** The table image of each segment that is a key, in segment order and
      with repeats kept; segments that are not keys are skipped. */
  function MatchRoutes(segments: seq<string>): (r: seq<Screen>)
    ensures |r| <= |segments|
    decreases |segments|
  {
    if |segments| == 0 then []
    else ImageOf(segments[0]) + MatchRoutes(segments[1..])
  }

  /** Each screen occurs in the match exactly as often as its key occurs
      among the segments: nothing is deduplicated, and nothing but a key
      yields a screen. */
  lemma {:induction false} MatchRoutesCount(segments: seq<string>, s: Screen)
    ensures multiset(MatchRoutes(segments))[s] == multiset(segments)[SegmentOf(s)]
    decreases |segments|
  {
    if |segments| > 0 {
      MatchRoutesCount(segments[1..], s);
      ImageCount(segments[0], s);
      assert segments == [segments[0]] + segments[1..];
    }
  }

  /** Matching distributes over concatenation: the screens of a longer list
      of segments are those of its first part followed by those of the rest,
      so the result keeps the order of the segments. */
  lemma {:induction false} MatchRoutesAppend(a: seq<string>, b: seq<string>)
    ensures MatchRoutes(a + b) == MatchRoutes(a) + MatchRoutes(b)
    decreases |a|
  {
    if |a| > 0 {
      var ab := a + b;
      assert MatchRoutes(ab) == ImageOf(a[0]) + MatchRoutes(a[1..] + b) by {
        assert ab[0] == a[0];
        assert ab[1..] == a[1..] + b;
      }
      MatchRoutesAppend(a[1..], b);
      assert ImageOf(a[0]) + (MatchRoutes(a[1..]) + MatchRoutes(b))
        == (ImageOf(a[0]) + MatchRoutes(a[1..])) + MatchRoutes(b);
    } else {
      assert a + b == b;
    }
  }

  /** The path is the root: `"/"` or `""`. */
  predicate IsRoot(path: string) {
    path == "/" || path == ""
  }

  /** `parseDeepLink(url)`. A failed path extraction gives `[]`; a root path
      has no segments and gives `[Home]`; any other path gives the matched
      screens of its segments, which may be `[]`. */
  function ParseDeepLink(url: string, pathname: UrlPathname): (r: seq<Screen>)
    ensures ExtractPath(url, pathname).None? ==> r == []
    ensures ExtractPath(url, pathname).Some? && IsRoot(ExtractPath(url, pathname).value) ==>
      r == [Home]
    ensures ExtractPath(url, pathname).Some? && !IsRoot(ExtractPath(url, pathname).value) ==>
      r == MatchRoutes(Segments(ExtractPath(url, pathname).value))
  {
    match ExtractPath(url, pathname)
    case None => []
    case Some(path) =>
      var routes := MatchRoutes(Segments(path));
      RootHasNoSegments(path);
      if |routes| == 0 && IsRoot(path) then [Home] else routes
  }

  /** The root path has no segments. */
  lemma RootHasNoSegments(path: string)
    ensures IsRoot(path) ==> Segments(path) == []
  {
    if path == "/" {
      SplitJoin(["", ""], '/');
      assert Join(["", ""], "/") == "/";
    } else if path == "" {
      SplitJoin([""], '/');
    }
  }

  /** A path segment: non-empty and free of `/`. */
  predicate IsSegment(segment: string) {
    |segment| > 0 && Free(segment, '/')
  }

  /** Splitting `"/" + join(segments, "/")` into non-empty segments gives the
      segments back. */
  lemma SegmentsOfRooted(segments: seq<string>)
    requires forall i :: 0 <= i < |segments| ==> IsSegment(segments[i])
    ensures Segments("/" + Join(segments, "/")) == segments
  {
    if |segments| == 0 {
      assert "/" + Join(segments, "/") == "/";
      RootHasNoSegments("/");
    } else {
      var parts := [""] + segments;
      var path := "/" + Join(segments, "/");
      assert parts[0] == "" && parts[1..] == segments;
      JoinCons("", segments);
      PartsFree(segments);
      SplitJoin(parts, '/');
      assert Split(path, "/") == parts;
      NonEmptyOfNonEmpty(segments);
    }
  }

  /** The segments of a path are its non-empty `/`-pieces, in order: for any
      pieces free of `/`, empty ones included, segmenting their join keeps
      exactly the non-empty ones. */
  lemma SegmentsOfPieces(parts: seq<string>)
    requires |parts| > 0
    requires forall i :: 0 <= i < |parts| ==> Free(parts[i], '/')
    ensures Segments(Join(parts, "/")) == NonEmpty(parts)
  {
    SplitJoin(parts, '/');
  }

  /** Every piece of a split on `/` is free of `/`. */
  lemma SplitPiecesSlashFree(path: string)
    ensures forall i :: 0 <= i < |Split(path, "/")| ==> Free(Split(path, "/")[i], '/')
  {
    var parts := Split(path, "/");
    SplitPiecesFree(path, "/");
    forall i | 0 <= i < |parts|
      ensures Free(parts[i], '/')
    {
      NotContainsFree(parts[i], '/');
    }
  }

  /** A trailing `/` adds only an empty piece, so the segments stay the
      same. */
  lemma TrailingSlashIgnored(path: string)
    ensures Segments(path + "/") == Segments(path)
  {
    var parts := Split(path, "/");
    JoinSplit(path, "/");
    SplitPiecesSlashFree(path);
    JoinSnoc(parts, "/", "");
    assert Join(parts + [""], "/") == path + "/";
    assert forall i :: 0 <= i < |parts + [""]| ==> Free((parts + [""])[i], '/') by {
      forall i | 0 <= i < |parts + [""]|
        ensures Free((parts + [""])[i], '/')
      {
        if i < |parts| {
          assert (parts + [""])[i] == parts[i];
        }
      }
    }
    SegmentsOfPieces(parts + [""]);
    SegmentsOfPieces(parts);
    NonEmptyAppend(parts, [""]);
    NonEmptyOne("");
  }

  /** Every piece of `[""] + segments` is free of `/`. */
  lemma PartsFree(segments: seq<string>)
    requires forall i :: 0 <= i < |segments| ==> IsSegment(segments[i])
    ensures forall i :: 0 <= i < |[""] + segments| ==> Free(([""] + segments)[i], '/')
  {
    forall i | 0 <= i < |[""] + segments|
      ensures Free(([""] + segments)[i], '/')
    {
      if i > 0 {
        assert ([""] + segments)[i] == segments[i - 1];
      }
    }
  }

  /** Joining a head onto a non-empty list puts one separator between them. */
  lemma JoinCons(head: string, tail: seq<string>)
    requires |tail| > 0
    ensures Join([head] + tail, "/") == head + "/" + Join(tail, "/")
  {
    assert ([head] + tail)[1..] == tail;
  }

  /** With a scheme and a remainder that are both free of `://`, the path is
      `/` followed by the whole remainder: the scheme is dropped and the host
      becomes an ordinary segment. */
  lemma SchemePath(scheme: string, rest: string, pathname: UrlPathname)
    requires !Contains(scheme, SchemeSeparator) && !Contains(rest, SchemeSeparator)
    ensures ExtractPath(scheme + SchemeSeparator + rest, pathname) == Some("/" + rest)
  {
    var url := scheme + SchemeSeparator + rest;
    var k := |scheme|;
    assert url[k..k + 3] == SchemeSeparator;
    forall j | 0 <= j < k
      ensures !OccursAt(url, SchemeSeparator, j)
    {
      if j + 3 <= k {
        assert url[j..j + 3] == scheme[j..j + 3];
        assert !OccursAt(scheme, SchemeSeparator, j);
      } else if j == k - 1 {
        assert url[j..j + 3][1] == url[k] == ':';
      } else {
        assert j == k - 2;
        assert url[j..j + 3][2] == url[k] == ':';
      }
    }
    IndexOfAt(url, SchemeSeparator, k);
    assert url[k + 3..] == rest;
    var path := ExtractPath(url, pathname).value;
    assert path == [path[0]] + path[1..];
  }

  /** A bare path and the same path behind any scheme free of `://` resolve
      to the same screens. */
  lemma SchemeIgnored(scheme: string, rest: string, pathname: UrlPathname)
    requires !Contains(scheme, SchemeSeparator) && !Contains(rest, SchemeSeparator)
    requires !StartsWith(rest, '/')
    ensures ParseDeepLink(scheme + SchemeSeparator + rest, pathname) == ParseDeepLink(rest, pathname)
  {
    SchemePath(scheme, rest, pathname);
  }

  /** A bare path of segments (no scheme, no leading `/`) resolves to the
      matched screens of exactly those segments. */
  lemma ParseBarePath(segments: seq<string>, pathname: UrlPathname)
    requires |segments| > 0
    requires forall i :: 0 <= i < |segments| ==> IsSegment(segments[i])
    requires !Contains(Join(segments, "/"), SchemeSeparator)
    ensures ParseDeepLink(Join(segments, "/"), pathname) == MatchRoutes(segments)
  {
    var url := Join(segments, "/");
    BarePathExtract(segments, pathname);
    SegmentsOfRooted(segments);
    RootedNotRoot(url);
    ParseOfPath(url, pathname, "/" + url);
  }

  /** The screens of a link, given the path extracted from it. */
  lemma ParseOfPath(url: string, pathname: UrlPathname, path: string)
    requires ExtractPath(url, pathname) == Some(path)
    ensures IsRoot(path) ==> ParseDeepLink(url, pathname) == [Home]
    ensures !IsRoot(path) ==> ParseDeepLink(url, pathname) == MatchRoutes(Segments(path))
  {
  }

  /** A bare path of segments is taken as the path with `/` prefixed. */
  lemma BarePathExtract(segments: seq<string>, pathname: UrlPathname)
    requires |segments| > 0 && IsSegment(segments[0])
    requires !Contains(Join(segments, "/"), SchemeSeparator)
    ensures ExtractPath(Join(segments, "/"), pathname) == Some("/" + Join(segments, "/"))
  {
    var url := Join(segments, "/");
    JoinStartsWithHead(segments);
    assert url[0] == segments[0][0];
    assert !StartsWith(url, '/');
  }

  /** `/` followed by a non-empty string is not a root path. */
  lemma RootedNotRoot(rest: string)
    requires |rest| > 0
    ensures !IsRoot("/" + rest)
  {
    assert |"/" + rest| > 1;
  }

  /** A joined list of segments starts with its first segment. */
  lemma JoinStartsWithHead(segments: seq<string>)
    requires |segments| > 0
    ensures segments[0] <= Join(segments, "/")
  {
    if |segments| > 1 {
      JoinCons(segments[0], segments[1..]);
      assert segments == [segments[0]] + segments[1..];
    }
  }

  /** A link `scheme://seg1/.../segN` resolves to the matched screens of the
      segments after the scheme. */
  lemma ParseSchemePath(scheme: string, segments: seq<string>, pathname: UrlPathname)
    requires forall i :: 0 <= i < |segments| ==> IsSegment(segments[i])
    requires !Contains(scheme, SchemeSeparator)
    requires !Contains(Join(segments, "/"), SchemeSeparator)
    ensures |segments| > 0 ==>
      ParseDeepLink(scheme + SchemeSeparator + Join(segments, "/"), pathname) == MatchRoutes(segments)
    ensures |segments| == 0 ==>
      ParseDeepLink(scheme + SchemeSeparator + Join(segments, "/"), pathname) == [Home]
  {
    var rest := Join(segments, "/");
    var url := scheme + SchemeSeparator + rest;
    SchemePath(scheme, rest, pathname);
    ParseOfPath(url, pathname, "/" + rest);
    SegmentsOfRooted(segments);
    if |segments| > 0 {
      JoinStartsWithHead(segments);
      RootedNotRoot(rest);
    } else {
      assert "/" + rest == "/";
    }
  }

  /** The keys of a list of screens, in order. */
  function Keys(screens: seq<Screen>): (keys: seq<string>)
    ensures |keys| == |screens|
    ensures forall i :: 0 <= i < |keys| ==> keys[i] == SegmentOf(screens[i])
    decreases |screens|
  {
    if |screens| == 0 then [] else [SegmentOf(screens[0])] + Keys(screens[1..])
  }

  /** Matching the keys of a list of screens gives the list back: the route
      table recovers every screen it was asked for, in order. */
  lemma {:induction false} MatchKeys(screens: seq<Screen>)
    ensures MatchRoutes(Keys(screens)) == screens
    decreases |screens|
  {
    if |screens| > 0 {
      KeysCons(screens);
      MatchKeyCons(screens[0], Keys(screens[1..]));
      MatchKeys(screens[1..]);
      assert screens == [screens[0]] + screens[1..];
    }
  }

  /** The keys of a non-empty list: the first screen's key, then the rest. */
  lemma KeysCons(screens: seq<Screen>)
    requires |screens| > 0
    ensures Keys(screens) == [SegmentOf(screens[0])] + Keys(screens[1..])
  {
  }

  /** A key in front of a list of segments contributes its own screen. */
  lemma MatchKeyCons(s: Screen, rest: seq<string>)
    ensures MatchRoutes([SegmentOf(s)] + rest) == [s] + MatchRoutes(rest)
  {
    KeyFound(s);
    MatchCons(SegmentOf(s), rest);
  }

  /** Matching a list with a first segment in front. */
  lemma MatchCons(segment: string, rest: seq<string>)
    ensures MatchRoutes([segment] + rest) == ImageOf(segment) + MatchRoutes(rest)
  {
    assert ([segment] + rest)[1..] == rest;
  }

  /** Joining pieces free of `c` with `/` leaves the result free of `c`, for
      any `c` other than `/`. */
  lemma {:induction false} JoinFree(parts: seq<string>, c: char)
    requires c != '/'
    requires forall i :: 0 <= i < |parts| ==> Free(parts[i], c)
    ensures Free(Join(parts, "/"), c)
    decreases |parts|
  {
    if |parts| > 1 {
      JoinFree(parts[1..], c);
      assert Join(parts, "/") == parts[0] + "/" + Join(parts[1..], "/");
    }
  }

  /** The link `key1/key2/.../keyN` built from the keys of the screens. */
  function LinkTo(screens: seq<Screen>): string {
    Join(Keys(screens), "/")
  }

  /** The keys of a link are segments and the link has no scheme. */
  lemma LinkToKeys(screens: seq<Screen>)
    ensures forall i :: 0 <= i < |screens| ==> IsSegment(Keys(screens)[i])
    ensures !Contains(LinkTo(screens), SchemeSeparator)
  {
    var keys := Keys(screens);
    forall i | 0 <= i < |keys|
      ensures IsSegment(keys[i]) && Free(keys[i], ':')
    {
      KeysHaveNoSlash(screens[i]);
      KeysHaveNoColon(screens[i]);
    }
    JoinFree(keys, ':');
    FreeNotContains(Join(keys, "/"), SchemeSeparator);
  }

  /** Parsing undoes link building: the bare link to any non-empty list of
      screens opens exactly those screens, in order, repeats included. */
  lemma LinkRoundTrip(screens: seq<Screen>, pathname: UrlPathname)
    requires |screens| > 0
    ensures ParseDeepLink(LinkTo(screens), pathname) == screens
  {
    LinkToKeys(screens);
    ParseBarePath(Keys(screens), pathname);
    MatchKeys(screens);
  }

  /** The same behind any scheme free of `://`; with no screens at all the
      link is a bare scheme and opens Home. */
  lemma SchemeLinkRoundTrip(scheme: string, screens: seq<Screen>, pathname: UrlPathname)
    requires !Contains(scheme, SchemeSeparator)
    ensures |screens| > 0 ==>
      ParseDeepLink(scheme + SchemeSeparator + LinkTo(screens), pathname) == screens
    ensures |screens| == 0 ==>
      ParseDeepLink(scheme + SchemeSeparator + LinkTo(screens), pathname) == [Home]
  {
    LinkToKeys(screens);
    ParseSchemePath(scheme, Keys(screens), pathname);
    MatchKeys(screens);
  }

  /** An occurrence in a string is an occurrence in any extension of it. */
  lemma OccursInExtension(rest: string, more: string, pat: string, j: int)
    ensures OccursAt(rest, pat, j) ==> OccursAt(rest + more, pat, j)
  {
    if OccursAt(rest, pat, j) {
      assert (rest + more)[j..j + |pat|] == rest[j..j + |pat|];
    }
  }

  /** A string without `://` has no `://` in any prefix either. */
  lemma NoSchemeInPrefix(rest: string, more: string)
    requires !Contains(rest + more, SchemeSeparator)
    ensures !Contains(rest, SchemeSeparator)
  {
    forall j | 0 <= j
      ensures !OccursAt(rest, SchemeSeparator, j)
    {
      OccursInExtension(rest, more, SchemeSeparator, j);
    }
  }

  /** A trailing `/` after a non-empty remainder changes nothing:
      `scheme://rest/` opens the same screens as `scheme://rest`. With an
      empty remainder it does matter (`scheme://` is a root path and
      `scheme:///` is not). */
  lemma ParseIgnoresTrailingSlash(scheme: string, rest: string, pathname: UrlPathname)
    requires |rest| > 0
    requires !Contains(scheme, SchemeSeparator) && !Contains(rest + "/", SchemeSeparator)
    ensures ParseDeepLink(scheme + SchemeSeparator + (rest + "/"), pathname)
      == ParseDeepLink(scheme + SchemeSeparator + rest, pathname)
  {
    NoSchemeInPrefix(rest, "/");
    SchemePath(scheme, rest + "/", pathname);
    SchemePath(scheme, rest, pathname);
    assert "/" + (rest + "/") == ("/" + rest) + "/";
    TrailingSlashIgnored("/" + rest);
    RootedNotRoot(rest);
    RootedNotRoot(rest + "/");
    ParseOfPath(scheme + SchemeSeparator + (rest + "/"), pathname, "/" + (rest + "/"));
    ParseOfPath(scheme + SchemeSeparator + rest, pathname, "/" + rest);
  }

  /** Putting `/` in front of a string cannot create a `://`. */
  lemma SlashPrefixNoScheme(rest: string)
    requires !Contains(rest, SchemeSeparator)
    ensures !Contains("/" + rest, SchemeSeparator)
  {
    var url := "/" + rest;
    assert !OccursAt(url, SchemeSeparator, 0) by {
      if |url| >= 3 {
        assert url[0..3][0] == '/';
      }
    }
    forall j | 0 < j
      ensures !OccursAt(url, SchemeSeparator, j)
    {
      if OccursAt(url, SchemeSeparator, j) {
        assert url[j..j + 3] == rest[j - 1..j + 2];
        assert OccursAt(rest, SchemeSeparator, j - 1);
      }
    }
  }

  /** The URL class of the WHATWG URL Standard called without a base URL.
      Every string that reaches the call starts with `/`, so it has no scheme;
      the basic URL parser then fails in its "no scheme" state and the
      constructor throws. */
  function PathnameWithoutBase(url: string): Option<string> {
    None
  }

  /** What the `/`-prefixed branch is evidently meant to produce: the link
      itself as the path, as the other two branches do. */
  function PathnameAsPath(url: string): Option<string> {
    Some(url)
  }

  /** With the path taken as the link itself, a `/`-prefixed link resolves to
      the same screens as the bare path after the `/`. */
  lemma RootedPathResolvesLikeBare(rest: string, pathname: UrlPathname)
    requires !Contains(rest, SchemeSeparator) && !StartsWith(rest, '/')
    ensures ParseDeepLink("/" + rest, PathnameAsPath) == ParseDeepLink(rest, pathname)
  {
    SlashPrefixNoScheme(rest);
  }
}
