/** Concrete links and the screens `parseDeepLink` resolves them to. Each
    lemma holds whatever the URL class does, unless it says otherwise. */
module DeepLinkExamples {
  import opened Wrappers
  import opened Strings
  import opened Routes
  import opened DeepLink

  /** A string without `:` contains no `://`. */
  lemma NoColon(s: string)
    requires Free(s, ':')
    ensures !Contains(s, SchemeSeparator)
  {
    FreeNotContains(s, SchemeSeparator);
  }

  /** The bare literals of the examples contain no `://`. */
  lemma LiteralsWithoutScheme()
    ensures !Contains("", SchemeSeparator)
    ensures !Contains("/", SchemeSeparator)
    ensures !Contains("x", SchemeSeparator)
    ensures !Contains("myapp", SchemeSeparator)
    ensures !Contains("Game1", SchemeSeparator)
    ensures !Contains("game1", SchemeSeparator)
    ensures !Contains("game1" + "/", SchemeSeparator)
  {
    NoColon("game1");
    assert Free("game1" + "/", ':');
    NoColon("game1" + "/");
    NoColon("");
    NoColon("/");
    NoColon("x");
    NoColon("myapp");
    NoColon("Game1");
  }

  /** `game1/game1_results` has no `://`; used by the bare and rooted game links. */
  lemma GamePathWithoutScheme()
    ensures !Contains("game1/game1_results", SchemeSeparator)
  {
    GameLinkTo();
    LinkToKeys([Game1, Game1Results]);
  }

  /** `game2/about?x=1` has no `://`; used by QueryNotStripped. */
  lemma QueryPathWithoutScheme()
    ensures !Contains("game2/about?x=1", SchemeSeparator)
  {
    var parts := ["game2", "about?x=1"];
    assert Free(parts[0], ':') && Free(parts[1], ':');
    JoinFree(parts, ':');
    assert Join(parts, "/") == "game2/about?x=1";
    FreeNotContains("game2/about?x=1", SchemeSeparator);
  }

  /** What the table gives for each segment the examples use. */
  lemma LiteralImages()
    ensures ImageOf("game1") == [Game1]
    ensures ImageOf("game2") == [Game2]
    ensures ImageOf("about") == [About]
    ensures ImageOf("game1_results") == [Game1Results]
    ensures ImageOf("about?x=1") == []
    ensures ImageOf("Game1") == []
  {
  }

  /** The links of the examples, each assembled from its scheme, the
      separator and its remainder, so that the general lemmas about
      `scheme://rest` apply to them. */
  lemma LinkLiterals()
    ensures "myapp" + SchemeSeparator + "" == "myapp://"
    ensures "myapp" + SchemeSeparator + "/" == "myapp:///"
    ensures "x" + SchemeSeparator + "game1/game1_results" == "x://game1/game1_results"
    ensures "myapp" + SchemeSeparator + "game2/about?x=1" == "myapp://game2/about?x=1"
    ensures "myapp" + SchemeSeparator + "about/game1/about" == "myapp://about/game1/about"
    ensures "myapp" + SchemeSeparator + ("game1" + "/") == "myapp://game1/"
    ensures "myapp" + SchemeSeparator + "game1" == "myapp://game1"
  {
  }

  /** The `/`-prefixed paths of the examples, assembled the same way. */
  lemma PathLiterals()
    ensures "/" + "game1/game1_results" == "/game1/game1_results"
    ensures "/" + "/" == "//"
  {
  }

  /** The empty link is a root path and opens Home. */
  lemma EmptyLinkOpensHome(pathname: UrlPathname)
    ensures ParseDeepLink("", pathname) == [Home]
  {
    LiteralsWithoutScheme();
    assert !StartsWith("", '/');
    assert "/" + "" == "/";
    assert ExtractPath("", pathname) == Some("/");
  }

  /** A bare scheme with nothing after it is a root path and opens Home. */
  lemma BareSchemeOpensHome(pathname: UrlPathname)
    ensures ParseDeepLink("myapp://", pathname) == [Home]
  {
    LiteralsWithoutScheme();
    assert Join([], "/") == "";
    LinkLiterals();
    ParseSchemePath("myapp", [], pathname);
  }

  /** `//` splits into three empty pieces. */
  lemma DoubleSlashHasNoSegments()
    ensures Segments("//") == []
  {
    SplitJoin(["", "", ""], '/');
    assert Join(["", "", ""], "/") == "//";
    assert NonEmpty(["", "", ""]) == [];
  }

  /** The path `//` is not a root path, so a scheme followed by `/` opens
      nothing, although the path has no segments either. */
  lemma SchemeSlashOpensNothing(pathname: UrlPathname)
    ensures ParseDeepLink("myapp:///", pathname) == []
  {
    SchemeSlashPath(pathname);
    DoubleSlashHasNoSegments();
    assert !IsRoot("//");
  }

  /** `myapp:///` has the path `//`; used by SchemeSlashOpensNothing. */
  lemma SchemeSlashPath(pathname: UrlPathname)
    ensures ExtractPath("myapp:///", pathname) == Some("//")
  {
    LiteralsWithoutScheme();
    LinkLiterals();
    PathLiterals();
    SchemePath("myapp", "/", pathname);
  }

  /** A bare path gets `/` prefixed and each segment is looked up in order. */
  lemma BarePathOpensEachSegment(pathname: UrlPathname)
    ensures ParseDeepLink("game1/game1_results", pathname) == [Game1, Game1Results]
  {
    GameLinkTo();
    LinkRoundTrip([Game1, Game1Results], pathname);
  }

  /** `game1/game1_results` is the link to Game1 then Game1Results; used by BarePathOpensEachSegment. */
  lemma GameLinkTo()
    ensures LinkTo([Game1, Game1Results]) == "game1/game1_results"
  {
    var keys := Keys([Game1, Game1Results]);
    assert keys == ["game1", "game1_results"];
    assert keys[1..] == ["game1_results"];
  }

  /** Any scheme is dropped: the same path behind `x://` opens the same
      screens. */
  lemma SchemeDropped(pathname: UrlPathname)
    ensures ParseDeepLink("x://game1/game1_results", pathname) == [Game1, Game1Results]
  {
    LiteralsWithoutScheme();
    GamePathWithoutScheme();
    LinkLiterals();
    SchemeIgnored("x", "game1/game1_results", pathname);
    BarePathOpensEachSegment(pathname);
  }

  /** The query string is not stripped: `about?x=1` is not a key, so only
      Game2 is opened. */
  lemma QueryNotStripped(pathname: UrlPathname)
    ensures ParseDeepLink("myapp://game2/about?x=1", pathname) == [Game2]
  {
    var segments := ["game2", "about?x=1"];
    assert IsSegment(segments[0]) && IsSegment(segments[1]);
    assert Join(segments, "/") == "game2/about?x=1";
    LiteralsWithoutScheme();
    QueryPathWithoutScheme();
    LinkLiterals();
    ParseSchemePath("myapp", segments, pathname);
    LiteralImages();
    assert segments[1..] == ["about?x=1"];
  }

  /** The host is an ordinary segment, repeats are kept and nothing is
      reordered or prefixed with Home. */
  lemma RepeatsKept(pathname: UrlPathname)
    ensures ParseDeepLink("myapp://about/game1/about", pathname) == [About, Game1, About]
  {
    RepeatLinkTo();
    LiteralsWithoutScheme();
    LinkLiterals();
    SchemeLinkRoundTrip("myapp", [About, Game1, About], pathname);
  }

  /** `about/game1/about` is the link to About, Game1, About; used by RepeatsKept. */
  lemma RepeatLinkTo()
    ensures LinkTo([About, Game1, About]) == "about/game1/about"
  {
    var keys := Keys([About, Game1, About]);
    assert keys == ["about", "game1", "about"];
    assert keys[1..] == ["game1", "about"];
    assert keys[2..] == ["about"];
  }

  /** A trailing `/` is dropped with the empty piece after it:
      `myapp://game1/` opens Game1, as `myapp://game1` does. */
  lemma TrailingSlashDropped(pathname: UrlPathname)
    ensures ParseDeepLink("myapp://game1/", pathname) == [Game1]
  {
    assert ParseDeepLink("myapp://game1/", pathname) == ParseDeepLink("myapp://game1", pathname) by {
      LiteralsWithoutScheme();
      LinkLiterals();
      ParseIgnoresTrailingSlash("myapp", "game1", pathname);
    }
    SchemeGame1Opens(pathname);
  }

  /** `myapp://game1` opens `[Game1]`; used by TrailingSlashDropped. */
  lemma SchemeGame1Opens(pathname: UrlPathname)
    ensures ParseDeepLink("myapp://game1", pathname) == [Game1]
  {
    var segments := ["game1"];
    assert Join(segments, "/") == "game1";
    assert IsSegment(segments[0]);
    LiteralsWithoutScheme();
    LinkLiterals();
    ParseSchemePath("myapp", segments, pathname);
    assert MatchRoutes(segments) == [Game1] by {
      LiteralImages();
      assert segments[1..] == [];
    }
  }

  /** Lookup is case-sensitive: `Game1` is not a key. */
  lemma CaseSensitive(pathname: UrlPathname)
    ensures ParseDeepLink("Game1", pathname) == []
  {
    assert IsSegment("Game1");
    assert Join(["Game1"], "/") == "Game1";
    LiteralsWithoutScheme();
    ParseBarePath(["Game1"], pathname);
    LiteralImages();
  }

  /** A link starting with `/` is handed to the URL class; when it throws
      the link opens nothing. */
  lemma ThrowingUrlOpensNothing(url: string, pathname: UrlPathname)
    requires StartsWith(url, '/') && !Contains(url, SchemeSeparator)
    requires pathname(url).None?
    ensures ParseDeepLink(url, pathname) == []
  {
  }

  /** `/game1/game1_results` has no `://`; used by the rooted-path examples. */
  lemma RootedPathWithoutScheme()
    ensures !Contains("/game1/game1_results", SchemeSeparator)
    ensures StartsWith("/game1/game1_results", '/')
  {
    NoColon("/game1/game1_results");
  }

  /** As written, a `/`-prefixed link opens nothing when the URL class has no
      base to resolve it against, while the same path without the `/` opens
      its screens. */
  lemma RootedPathDroppedAsWritten()
    ensures ParseDeepLink("/game1/game1_results", PathnameWithoutBase) == []
    ensures ParseDeepLink("game1/game1_results", PathnameWithoutBase) == [Game1, Game1Results]
  {
    RootedPathWithoutScheme();
    BarePathOpensEachSegment(PathnameWithoutBase);
  }

  /** With the path taken as the link itself, the same `/`-prefixed link
      opens Game1 and then Game1Results. */
  lemma RootedPathOpensAsIntended()
    ensures ParseDeepLink("/game1/game1_results", PathnameAsPath) == [Game1, Game1Results]
  {
    PathLiterals();
    GamePathWithoutScheme();
    RootedPathResolvesLikeBare("game1/game1_results", PathnameAsPath);
    BarePathOpensEachSegment(PathnameAsPath);
  }
}
