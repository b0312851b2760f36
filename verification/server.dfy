/** The server's path prefix (`backend/internal/server/server.go`): the configured prefix is
    normalised once, may be overridden by the `WithPathPrefix` option, and every API route is
    the prefix followed by a fixed path. */
module ServerPaths {
  import opened Text
  import opened Config

  /** The prefix with one leading slash forced on, as `normalizePrefix` builds it before
      dropping a trailing slash. */
  function SlashLed(t: string): string
  {
    if "/" <= t then t else "/" + t
  }

  /** `normalizePrefix`: trimmed; blank or `/` means no prefix; otherwise it starts with one
      `/`, and one trailing `/` is removed. */
  function NormalizePrefix(prefix: string): (r: string)
    ensures r == "" || r[0] == '/'
  {
    var t := TrimSpace(prefix);
    if t == "" || t == "/" then ""
    else TrimSuffix(SlashLed(t), "/")
  }

  /** The prefix is empty exactly when the trimmed input is blank or a lone `/`. */
  lemma NoPrefixIffBlankOrRoot(prefix: string)
    ensures NormalizePrefix(prefix) == "" <==> TrimSpace(prefix) == "" || TrimSpace(prefix) == "/"
  {
    var t := TrimSpace(prefix);
    if t != "" && t != "/" {
      if "/" <= t {
        assert |t| >= 2;
      } else {
        assert |"/" + t| >= 2;
      }
    }
  }

  /** Only one trailing `/` is removed: the result is the slash-led trimmed input with at most
      its last character, a `/`, dropped. */
  lemma TrimsOneTrailingSlash(prefix: string)
    requires TrimSpace(prefix) != "" && TrimSpace(prefix) != "/"
    ensures var p := SlashLed(TrimSpace(prefix)); var r := NormalizePrefix(prefix);
      r <= p && |p| - 1 <= |r| && (|r| < |p| ==> p[|r|] == '/')
  {
  }

  /** Hence it is not idempotent: `w//` becomes `/w/` (so `a//` becomes `/a/`), which
      normalises again to `/w`. */
  lemma DoubleTrailingSlashKeepsOne(w: string)
    requires |w| > 0 && w[0] != '/' && !IsGoSpace(w[0])
    ensures NormalizePrefix(w + "//") == "/" + w + "/"
    ensures NormalizePrefix(NormalizePrefix(w + "//")) == "/" + w
  {
    var s := w + "//";
    NormalizeUntrimmable(s);
    assert SlashLed(s) == ("/" + w + "/") + "/";
    var once := "/" + w + "/";
    NormalizeUntrimmable(once);
    assert once == ("/" + w) + "/";
  }

  /** On input with nothing to trim, only the slashes are adjusted. */
  lemma NormalizeUntrimmable(t: string)
    requires |t| >= 2 && !IsGoSpace(t[0]) && !IsGoSpace(t[|t| - 1])
    ensures NormalizePrefix(t) == TrimSuffix(SlashLed(t), "/")
  {
    TrimOfTrimmed(t, IsGoSpace);
  }

  /** A prefix already in normal form (a slash, then something not ending in `/` or white
      space) comes back unchanged. */
  lemma NormalFormIsFixed(p: string)
    requires |p| >= 2 && p[0] == '/' && p[|p| - 1] != '/' && !IsGoSpace(p[|p| - 1])
    ensures NormalizePrefix(p) == p
  {
    NormalizeUntrimmable(p);
    assert SlashLed(p) == p by {
      assert p[..1] == "/";
    }
    assert !HasSuffix(p, "/") by {
      assert p[|p| - 1..][0] == p[|p| - 1];
    }
  }

  /** The HTTP server's routing state. */
  class Server {
    var cfg: AppConfig
    var pathPrefix: string

    /** `New`: the prefix comes from the configuration, normalised. */
    constructor (cfg: AppConfig)
      ensures this.cfg == cfg && pathPrefix == NormalizePrefix(cfg.pathPrefix)
    {
      this.cfg := cfg;
      pathPrefix := NormalizePrefix(cfg.pathPrefix);
    }

    /** The `WithPathPrefix` option applied to the server: it stores the normalised prefix. */
    method WithPathPrefix(prefix: string)
      modifies this
      ensures pathPrefix == NormalizePrefix(prefix) && cfg == old(cfg)
    {
      pathPrefix := NormalizePrefix(prefix);
    }

    function ApiPrefix(): string
      reads this
    {
      pathPrefix + "/api/"
    }

    function ApiConfigPath(): string
      reads this
    {
      pathPrefix + "/api/config"
    }

    function ApiWidgetsPrefix(): string
      reads this
    {
      pathPrefix + "/api/widgets/"
    }
  }

  /** Every API route lies under the server's prefix and under `/api/`, so the configuration
      and widget routes are sub-paths of the API prefix. */
  lemma ApiPathsNest(s: Server)
    ensures s.pathPrefix <= s.ApiPrefix()
    ensures s.ApiPrefix() <= s.ApiConfigPath() && s.ApiPrefix() <= s.ApiWidgetsPrefix()
    ensures s.ApiWidgetsPrefix()[|s.pathPrefix|..] == "/api/widgets/"
  {
    var p := s.pathPrefix;
    assert p + "/api/config" == (p + "/api/") + "config";
    assert p + "/api/widgets/" == (p + "/api/") + "widgets/";
  }
}
