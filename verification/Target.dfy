/** Where a worker connects to and where it posts: two URLs made from one configured target. */
module Target {
  import opened Options

  /** A parsed URL: what lies between scheme and path is not touched and stays as it is. */
  datatype Url = Url(scheme: string, authority: string, path: string, query: Option<string>, fragment: Option<string>)
  {
    function SetScheme(s: string): Url {
      this.(scheme := s)
    }

    /** The path of a web URL always begins with a slash. */
    function SetPath(p: string): Url {
      this.(path := if p != "" && p[0] == '/' then p else "/" + p)
    }
  }

  datatype Target = Target(wsUrl: Url, responseBase: Url)

  datatype Parsing = Parsed(target: Target) | UnsupportedScheme(scheme: string)

  predicate EndsInSlash(s: string) {
    s != "" && s[|s| - 1] == '/'
  }

  /** The path ends with `/ws`. */
  predicate EndsInWs(s: string) {
    |s| >= 3 && s[|s| - 3] == '/' && s[|s| - 2] == 'w' && s[|s| - 1] == 's'
  }

  /** The path ends with `/ws/`. */
  predicate EndsInWsSlash(s: string) {
    EndsInSlash(s) && EndsInWs(s[..|s| - 1])
  }

  /** `trim_end_matches('/')` */
  function TrimEnd(s: string): (r: string)
    ensures !EndsInSlash(r) && r <= s
  {
    if EndsInSlash(s) then TrimEnd(s[..|s| - 1]) else s
  }

  function WithTrailingSlash(path: string): (r: string)
    ensures EndsInSlash(r)
  {
    if path == "" then "/" else if EndsInSlash(path) then path else path + "/"
  }

  /** The WebSocket scheme and the HTTP scheme that belong to a configured scheme. */
  function Schemes(scheme: string): Option<(string, string)> {
    if scheme == "http" then Some(("ws", "http"))
    else if scheme == "https" then Some(("wss", "https"))
    else if scheme == "ws" then Some(("ws", "http"))
    else if scheme == "wss" then Some(("wss", "https"))
    else None
  }

  /** Base path and WebSocket path. */
  function Paths(path: string): (string, string) {
    var trimmed := TrimEnd(path);
    if EndsInWs(trimmed) || trimmed == "ws" then
      (WithTrailingSlash(if EndsInWs(trimmed) then trimmed[..|trimmed| - 3] else ""), WithTrailingSlash(trimmed))
    else
      var base := WithTrailingSlash(trimmed);
      (base, base + "ws/")
  }

  function ParseUrl(source: Url): Parsing {
    match Schemes(source.scheme)
    case None => UnsupportedScheme(source.scheme)
    case Some((ws, http)) =>
      var plain := source.(query := None, fragment := None);
      var paths := Paths(source.path);
      Parsed(Target(plain.SetScheme(ws).SetPath(paths.1), plain.SetScheme(http).SetPath(paths.0)))
  }

  /** The parsing as it is done, on local copies of the URL that are edited step by step. */
  method Parse(value: Url) returns (r: Parsing)
    ensures r == ParseUrl(value)
  {
    var source := value;
    var schemes := Schemes(source.scheme);
    if schemes.None? {
      return UnsupportedScheme(source.scheme);
    }
    source := source.(fragment := None);
    source := source.(query := None);
    var trimmed := source.path;
    while EndsInSlash(trimmed)
      invariant TrimEnd(trimmed) == TrimEnd(source.path)
      decreases |trimmed|
    {
      trimmed := trimmed[..|trimmed| - 1];
    }
    var basePath, wsPath;
    if EndsInWs(trimmed) || trimmed == "ws" {
      var base := "";
      if EndsInWs(trimmed) {
        base := trimmed[..|trimmed| - 3];
      }
      basePath := WithTrailingSlash(base);
      wsPath := WithTrailingSlash(trimmed);
    } else {
      basePath := WithTrailingSlash(trimmed);
      wsPath := basePath + "ws/";
    }
    var wsUrl := source;
    wsUrl := wsUrl.SetScheme(schemes.value.0);
    wsUrl := wsUrl.SetPath(wsPath);
    var responseBase := source;
    responseBase := responseBase.SetScheme(schemes.value.1);
    responseBase := responseBase.SetPath(basePath);
    return Parsed(Target(wsUrl, responseBase));
  }

  // ------------------------------------------------------------------ properties

  lemma {:induction false} TrimOneSlash(s: string)
    ensures EndsInSlash(s + "/") && TrimEnd(s + "/") == TrimEnd(s)
  {
    assert (s + "/")[..|s|] == s;
  }

  /** A path that has been trimmed gets its one slash back. */
  lemma {:induction false} SlashOfTrimmed(s: string)
    requires !EndsInSlash(s)
    ensures WithTrailingSlash(s) == s + "/" && TrimEnd(s + "/") == s
  {
    TrimOneSlash(s);
  }

  /** Puts `/ws/` together from its parts. */
  lemma {:induction false} WsTail(x: string)
    ensures (x + "/ws") + "/" == x + "/ws/" && (x + "/") + "ws/" == x + "/ws/"
    ensures EndsInWs(x + "/ws") && !EndsInSlash(x + "/ws") && (x + "/ws")[..|x|] == x
    ensures EndsInWsSlash(x + "/ws/")
  {
    assert (x + "/ws/")[..|x| + 3] == x + "/ws";
  }

  lemma {:induction false} WsHead(s: string)
    requires EndsInWs(s)
    ensures s == s[..|s| - 3] + "/ws"
  {
  }

  /** What the path of a parsed WebSocket URL is made of. */
  lemma {:induction false} WsPathShape(path: string) returns (x: string)
    ensures Paths(path).1 == x + "/ws/" || (Paths(path) == ("/", "ws/") && x == "")
    ensures Paths(path).0 == WithTrailingSlash(x)
  {
    var trimmed := TrimEnd(path);
    SlashOfTrimmed(trimmed);
    if EndsInWs(trimmed) {
      x := trimmed[..|trimmed| - 3];
      WsHead(trimmed);
      WsTail(x);
    } else if trimmed == "ws" {
      x := "";
      assert trimmed + "/" == "ws/";
    } else {
      x := trimmed;
      WsTail(x);
    }
    hide TrimEnd;
    hide EndsInSlash;
    hide EndsInWs;
  }

  lemma {:induction false} PathsOfWs(x: string)
    ensures Paths(x + "/ws/") == (WithTrailingSlash(x), x + "/ws/")
  {
    WsTail(x);
    SlashOfTrimmed(x + "/ws");
    hide TrimEnd;
    hide EndsInSlash;
    hide EndsInWs;
  }

  lemma {:induction false} LeadingSlash(u: Url, p: string)
    ensures u.SetPath(p).path != "" && u.SetPath(p).path[0] == '/'
    ensures p != "" && p[0] == '/' ==> u.SetPath(p).path == p
  {
  }

  /** What the two URLs have in common with the configured one. */
  predicate SameSite(source: Url, t: Target) {
    && t.wsUrl.authority == t.responseBase.authority == source.authority
    && t.wsUrl.query == t.responseBase.query == None && t.wsUrl.fragment == t.responseBase.fragment == None
    && (t.wsUrl.scheme, t.responseBase.scheme) ==
       (if source.scheme == "https" || source.scheme == "wss" then ("wss", "https") else ("ws", "http"))
  }

  /**
   The parsing fails exactly for other schemes; otherwise both URLs stay on the configured site and keep its security.
   */
  lemma {:induction false} ParsesExactlyWebUrls(source: Url)
    ensures ParseUrl(source) == UnsupportedScheme(source.scheme) <==> source.scheme !in ["http", "https", "ws", "wss"]
    ensures ParseUrl(source).Parsed? <==> Schemes(source.scheme).Some?
    ensures ParseUrl(source).Parsed? ==> SameSite(source, ParseUrl(source).target)
  {
    hide Paths;
  }

  lemma {:induction false} PathsAreSet(source: Url)
    requires ParseUrl(source).Parsed?
    ensures var t := ParseUrl(source).target;
            t.wsUrl.path == source.SetPath(Paths(source.path).1).path
              && t.responseBase.path == source.SetPath(Paths(source.path).0).path
  {
    hide Paths;
    hide Schemes;
  }

  lemma {:induction false} GivenSlash(u: Url, y: string, tail: string)
    requires y != "" && y[0] != '/'
    ensures u.SetPath(y + tail).path == ("/" + y) + tail
    ensures u.SetPath(WithTrailingSlash(y)).path == WithTrailingSlash("/" + y)
  {
    assert "/" + (y + "/") == ("/" + y) + "/";
    assert ("/" + y)[|"/" + y| - 1] == y[|y| - 1];
  }

  /** The paths as they end up in the two URLs. */
  lemma {:induction false} FinalPaths(source: Url) returns (x: string)
    requires ParseUrl(source).Parsed?
    ensures var t := ParseUrl(source).target;
            && t.wsUrl.path == x + "/ws/" && t.responseBase.path == WithTrailingSlash(x)
    ensures x == "" || x[0] == '/'
  {
    PathsAreSet(source);
    hide ParseUrl;
    var y := WsPathShape(source.path);
    hide Paths;
    if y == "" {
      x := "";
      EmptyBase(source);
    } else if y[0] == '/' {
      x := y;
    } else {
      x := "/" + y;
      GivenSlash(source, y, "/ws/");
    }
  }

  lemma {:induction false} EmptyBase(u: Url)
    ensures u.SetPath("ws/").path == "" + "/ws/" && u.SetPath("" + "/ws/").path == "" + "/ws/"
    ensures WithTrailingSlash("") == "/" && u.SetPath("/").path == "/"
  {
    assert "/" + "ws/" == "/ws/";
  }

  /** Both paths begin and end with a slash. */
  lemma {:induction false} PathsEndInSlash(source: Url)
    requires ParseUrl(source).Parsed?
    ensures var t := ParseUrl(source).target;
            && EndsInSlash(t.wsUrl.path) && EndsInSlash(t.responseBase.path)
            && t.wsUrl.path[0] == '/' && t.responseBase.path[0] == '/'
  {
    hide ParseUrl;
    var x := FinalPaths(source);
    SlashesAround(x);
    hide WithTrailingSlash;
  }

  lemma {:induction false} SlashesAround(x: string)
    requires x == "" || x[0] == '/'
    ensures EndsInSlash(x + "/ws/") && (x + "/ws/")[0] == '/' && WithTrailingSlash(x)[0] == '/'
  {
  }

  lemma {:induction false} SameTarget(source: Url, u: Url)
    requires ParseUrl(source).Parsed?
    requires (u == ParseUrl(source).target.wsUrl || u == ParseUrl(source).target.responseBase)
    ensures var t := ParseUrl(source).target;
            ParseUrl(u) == Parsed(Target(t.wsUrl.SetPath(Paths(u.path).1), t.responseBase.SetPath(Paths(u.path).0)))
  {
    hide Paths;
    ParsesExactlyWebUrls(source);
  }

  /** Without trailing slash a path gets one for the base, and `ws/` for the WebSocket if not there yet. */
  lemma {:induction false} PathsOfBare(path: string)
    requires !EndsInSlash(path)
    ensures !EndsInWs(path) && path != "ws" ==> Paths(path) == (path + "/", (path + "/") + "ws/")
    ensures EndsInWs(path) || path == "ws" ==> Paths(path).1 == path + "/"
    ensures path == "ws" ==> Paths(path).0 == "/"
    ensures EndsInWs(path) ==>
              var base := path[..|path| - 3];
              Paths(path).0 == if base != "" && base[|base| - 1] == '/' then base else base + "/"
  {
    SlashOfTrimmed(path);
  }

  /** Slashes at the end of the configured path do not matter. */
  lemma {:induction false} TrailingSlashesDoNotMatter(source: Url)
    ensures ParseUrl(source.(path := source.path + "/")) == ParseUrl(source)
  {
    TrimOneSlash(source.path);
    hide TrimEnd;
  }

  /**
   Where a configured target leads: both URLs keep its path, the response base with one slash at the end and the
   WebSocket URL with `/ws/`, unless the path ends in `/ws` already, which then belongs to the WebSocket URL alone.
   */
  lemma {:induction false} TargetOfPath(source: Url)
    requires ParseUrl(source).Parsed? && source.path != "" && source.path[0] == '/' && !EndsInSlash(source.path)
    ensures var t := ParseUrl(source).target;
            if EndsInWs(source.path) then
              var base := source.path[..|source.path| - 3];
              && t.wsUrl.path == source.path + "/"
              && t.responseBase.path == if base != "" && base[|base| - 1] == '/' then base else base + "/"
            else t.responseBase.path == source.path + "/" && t.wsUrl.path == (source.path + "/") + "ws/"
  {
    PathsAreSet(source);
    PathsOfBare(source.path);
    hide Paths;
    hide ParseUrl;
    var p := Paths(source.path);
    LeadingSlash(source, p.0);
    LeadingSlash(source, p.1);
  }

  /** Normalisation is a fixpoint: parsing the WebSocket URL of a target gives the same target. */
  lemma {:induction false} WsUrlIsFixpoint(source: Url)
    requires ParseUrl(source).Parsed?
    ensures ParseUrl(ParseUrl(source).target.wsUrl) == ParseUrl(source)
  {
    var t := ParseUrl(source).target;
    hide Paths;
    hide WithTrailingSlash;
    hide ParseUrl;
    SameTarget(source, t.wsUrl);
    PathsEndInSlash(source);
    var x := FinalPaths(source);
    PathsOfWs(x);
    LeadingSlash(t.wsUrl, t.wsUrl.path);
    LeadingSlash(t.responseBase, t.responseBase.path);
  }

  /**
   Parsing the response base again gives the same target exactly when the WebSocket path is the base followed by
   `ws/` and the base does not itself end in `/ws/`.
   */
  lemma {:induction false} ResponseBaseIsFixpointExactlyWhen(source: Url)
    requires ParseUrl(source).Parsed?
    ensures var t := ParseUrl(source).target;
            ParseUrl(t.responseBase) == Parsed(t) <==>
            t.wsUrl.path == t.responseBase.path + "ws/" && !EndsInWsSlash(t.responseBase.path)
  {
    var t := ParseUrl(source).target;
    hide Paths;
    hide ParseUrl;
    hide EndsInWsSlash;
    SameTarget(source, t.responseBase);
    PathsEndInSlash(source);
    var x := FinalPaths(source);
    BasePaths(x);
    var again := Paths(t.responseBase.path);
    hide WithTrailingSlash;
    LeadingSlash(t.responseBase, again.0);
    LeadingSlash(t.wsUrl, again.1);
  }

  /** The paths made from a base path, by the shape of the path before `/ws/`. */
  lemma {:induction false} BasePaths(x: string)
    requires x == "" || x[0] == '/'
    ensures var base := WithTrailingSlash(x);
            (Paths(base) == (base, x + "/ws/")) <==> x + "/ws/" == base + "ws/" && !EndsInWsSlash(base)
    ensures var again := Paths(WithTrailingSlash(x));
            again.0 != "" && again.1 != "" && again.0[0] == '/' && again.1[0] == '/'
  {
    if EndsInSlash(x) {
      BaseOfSlash(x);
    } else {
      SlashOfTrimmed(x);
      WsTail(x);
      if EndsInWs(x) {
        BaseOfWs(x);
      } else {
        BaseOfPlain(x);
      }
    }
  }

  /** The base of such a path has lost slashes of its own. */
  lemma {:induction false} BaseOfSlash(x: string)
    requires EndsInSlash(x) && x[0] == '/'
    ensures WithTrailingSlash(x) == x && x + "/ws/" != x + "ws/"
    ensures Paths(x) != (x, x + "/ws/")
    ensures Paths(x).0 != "" && Paths(x).1 != "" && Paths(x).0[0] == '/' && Paths(x).1[0] == '/'
  {
    assert |x + "/ws/"| == |x + "ws/"| + 1;
    var trimmed := TrimEnd(x);
    SlashOfTrimmed(trimmed);
    TrimmedStart(trimmed, x);
    assert |trimmed| < |x|;
    assert |Paths(x).1| < |x + "/ws/"|;
  }

  lemma {:induction false} TrimmedStart(trimmed: string, x: string)
    requires trimmed <= x && x != "" && x[0] == '/' && !EndsInSlash(trimmed)
    ensures trimmed == "" || trimmed[0] == '/'
    ensures trimmed != "ws" && WithTrailingSlash(trimmed)[0] == '/'
    ensures EndsInWs(trimmed) ==> WithTrailingSlash(trimmed[..|trimmed| - 3])[0] == '/'
  {
  }

  lemma {:induction false} BaseOfWs(x: string)
    requires EndsInWs(x) && x[0] == '/'
    ensures EndsInWsSlash(x + "/") && Paths(x + "/") != (x + "/", x + "/ws/")
    ensures var again := Paths(x + "/"); again.0 != "" && again.1 != "" && again.0[0] == '/' && again.1[0] == '/'
  {
    SlashOfTrimmed(x);
    TrimmedStart(x, x);
    assert (x + "/")[..|x|] == x;
    assert Paths(x + "/").1 == x + "/";
    assert |x + "/"| < |x + "/ws/"|;
  }

  lemma {:induction false} BaseOfPlain(x: string)
    requires !EndsInWs(x) && !EndsInSlash(x) && (x == "" || x[0] == '/')
    ensures !EndsInWsSlash(x + "/") && Paths(x + "/") == (x + "/", x + "/ws/")
    ensures (x + "/")[0] == '/' && (x + "/ws/")[0] == '/'
  {
    SlashOfTrimmed(x);
    WsTail(x);
    assert (x + "/")[..|x|] == x;
  }
}
