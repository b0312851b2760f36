/** The front end's path prefix (`frontend/src/pathPrefix.ts`): the prefix is normalised like
    the server's, kept in a module-level variable, and put in front of every path the client
    requests. `null`/`undefined` are `None`; the `<meta>` tag the initial prefix is read from is a
    parameter of the store's constructor. */
module PathPrefix {
  import opened Wrappers
  import opened Text
  import ServerPaths

  /** `normalizePrefix` (TypeScript): JavaScript-trimmed; blank or `/` means no prefix;
      otherwise one leading `/` is ensured and one trailing `/` removed. */
  function NormalizePrefix(prefix: Option<string>): (r: string)
    ensures r == "" || r[0] == '/'
    ensures prefix.None? ==> r == ""
  {
    var trimmed := Trim(if prefix.None? then "" else prefix.value, IsJsSpace);
    if trimmed == "" || trimmed == "/" then ""
    else
      var normalized := if "/" <= trimmed then trimmed else "/" + trimmed;
      if HasSuffix(normalized, "/") then normalized[..|normalized| - 1] else normalized
  }

  /** Exactly one trailing `/` is removed, if present. */
  lemma TrimsExactlyOneSlash(prefix: string)
    requires var t := Trim(prefix, IsJsSpace); t != "" && t != "/"
    ensures var t := Trim(prefix, IsJsSpace); var n := if "/" <= t then t else "/" + t;
      var r := NormalizePrefix(Some(prefix));
      && (HasSuffix(n, "/") ==> r + "/" == n)
      && (!HasSuffix(n, "/") ==> r == n)
  {
    var t := Trim(prefix, IsJsSpace);
    var n := if "/" <= t then t else "/" + t;
    if HasSuffix(n, "/") {
      assert n[..|n| - 1] + "/" == n;
    }
  }

  /** Trimming by two sets of characters agrees when they agree on every character present. */
  lemma TrimAgrees(s: string, d1: char -> bool, d2: char -> bool)
    requires forall i :: 0 <= i < |s| ==> d1(s[i]) == d2(s[i])
    ensures Trim(s, d1) == Trim(s, d2)
  {
    TrimLeftAgrees(s, d1, d2);
    var t := TrimLeft(s, d1);
    assert forall i :: 0 <= i < |t| ==> t[i] == s[|s| - |t| + i];
    TrimRightAgrees(t, d1, d2);
  }

  lemma {:induction false} TrimLeftAgrees(s: string, d1: char -> bool, d2: char -> bool)
    requires forall i :: 0 <= i < |s| ==> d1(s[i]) == d2(s[i])
    ensures TrimLeft(s, d1) == TrimLeft(s, d2)
  {
    if |s| > 0 && d1(s[0]) {
      assert forall i :: 0 <= i < |s[1..]| ==> s[1..][i] == s[i + 1];
      TrimLeftAgrees(s[1..], d1, d2);
    }
  }

  lemma {:induction false} TrimRightAgrees(s: string, d1: char -> bool, d2: char -> bool)
    requires forall i :: 0 <= i < |s| ==> d1(s[i]) == d2(s[i])
    ensures TrimRight(s, d1) == TrimRight(s, d2)
  {
    if |s| > 0 && d1(s[|s| - 1]) {
      TrimRightAgrees(s[..|s| - 1], d1, d2);
    }
  }

  /** Go's and JavaScript's white space differ only in NEL and the byte-order mark. */
  lemma SpacesAgree(c: char)
    requires c != '\U{0085}' && c != '\U{FEFF}'
    ensures IsJsSpace(c) == IsGoSpace(c)
  {
  }

  /** The client and the server normalise a prefix alike, as long as it holds neither NEL
      (U+0085, white space to Go only) nor the byte-order mark (U+FEFF, white space to
      JavaScript only). */
  lemma AgreesWithServer(prefix: string)
    requires '\U{0085}' !in prefix && '\U{FEFF}' !in prefix
    ensures NormalizePrefix(Some(prefix)) == ServerPaths.NormalizePrefix(prefix)
  {
    TrimsAgreeOn(prefix);
    var t := Trim(prefix, IsJsSpace);
    if t == "" || t == "/" {
      assert NormalizePrefix(Some(prefix)) == "";
    } else {
      SlashStepsAgree(t);
      assert ServerPaths.NormalizePrefix(prefix) == TrimSuffix(ServerPaths.SlashLed(t), "/");
    }
  }

  lemma TrimsAgreeOn(s: string)
    requires '\U{0085}' !in s && '\U{FEFF}' !in s
    ensures Trim(s, IsJsSpace) == TrimSpace(s)
  {
    SpacesAgreeOn(s);
    TrimAgrees(s, IsJsSpace, IsGoSpace);
  }

  lemma SpacesAgreeOn(s: string)
    requires '\U{0085}' !in s && '\U{FEFF}' !in s
    ensures forall i :: 0 <= i < |s| ==> IsJsSpace(s[i]) == IsGoSpace(s[i])
  {
    forall i | 0 <= i < |s|
      ensures IsJsSpace(s[i]) == IsGoSpace(s[i])
    {
      assert s[i] in s;
      SpacesAgree(s[i]);
    }
  }

  /** After trimming, both sides adjust the slashes alike. */
  lemma SlashStepsAgree(t: string)
    requires t != "" && t != "/"
    ensures (var n := if "/" <= t then t else "/" + t;
             if HasSuffix(n, "/") then n[..|n| - 1] else n)
            == TrimSuffix(ServerPaths.SlashLed(t), "/")
  {
  }

  /** Without that condition they differ: a lone NEL is blank to the server but a one-character
      path segment to the client. */
  lemma DiffersOnNel()
    ensures ServerPaths.NormalizePrefix("\U{0085}") == ""
    ensures NormalizePrefix(Some("\U{0085}")) == "/\U{0085}"
  {
    NelIsBlankToServer();
    NelIsKeptByClient();
  }

  lemma NelIsBlankToServer()
    ensures ServerPaths.NormalizePrefix("\U{0085}") == ""
  {
    var nel := "\U{0085}";
    assert TrimLeft(nel, IsGoSpace) == TrimLeft(nel[1..], IsGoSpace);
  }

  lemma NelIsKeptByClient()
    ensures NormalizePrefix(Some("\U{0085}")) == "/\U{0085}"
  {
    NelIsNotJsSpace();
    NelGainsSlash();
  }

  lemma NelIsNotJsSpace()
    ensures Trim("\U{0085}", IsJsSpace) == "\U{0085}"
  {
    TrimOfTrimmed("\U{0085}", IsJsSpace);
  }

  lemma NelGainsSlash()
    ensures (if "/" <= "\U{0085}" then "\U{0085}" else "/" + "\U{0085}") == "/\U{0085}"
    ensures !HasSuffix("/\U{0085}", "/")
  {
    var n := "/\U{0085}";
    assert n[1..] == "\U{0085}";
    assert n[|n| - 1..][0] != '/';
  }

  /** The module-level `currentPrefix` and the functions that read and write it. */
  class PrefixStore {
    var currentPrefix: string

    /** Module initialisation: `readMetaPrefix`, the normalised content of the prefix `<meta>`
        tag (`None` without a document or a tag). */
    constructor (meta: Option<string>)
      ensures currentPrefix == NormalizePrefix(meta)
    {
      currentPrefix := NormalizePrefix(meta);
    }

    /** `getPathPrefix`. */
    function GetPathPrefix(): string
      reads this
    {
      currentPrefix
    }

    /** `setPathPrefix`: stores the normalised prefix. */
    method SetPathPrefix(prefix: Option<string>)
      modifies this
      ensures currentPrefix == NormalizePrefix(prefix)
    {
      currentPrefix := NormalizePrefix(prefix);
    }

    /** `withPathPrefix`: the prefix, then the path, with a `/` between them unless the path
        starts with one. */
    function WithPathPrefix(path: string): (r: string)
      reads this
      ensures currentPrefix <= r && |r| > |currentPrefix| && r[|currentPrefix|] == '/'
      ensures r[|currentPrefix| + 1..] == if "/" <= path then path[1..] else path
    {
      if !("/" <= path) then currentPrefix + "/" + path else currentPrefix + path
    }
  }

  /** With the server's prefix, `withPathPrefix` turns the API paths into the server's routes:
      `/api/config` into its configuration route and `/api/widgets/<id>` into the widget's data
      route. (The client's own requests in `api.ts` do not call it; see `UnprefixedPathsNeedRoot`.) */
  lemma ClientPathsMatchServerRoutes(store: PrefixStore, server: ServerPaths.Server, id: string)
    requires store.currentPrefix == server.pathPrefix
    ensures store.WithPathPrefix("/api/config") == server.ApiConfigPath()
    ensures store.WithPathPrefix("/api/widgets/" + id) == server.ApiWidgetsPrefix() + id
  {
    assert ("/api/widgets/" + id)[1..] == "api/widgets/" + id;
    assert store.currentPrefix + ("/api/widgets/" + id) == store.currentPrefix + "/api/widgets/" + id;
  }

  /** `fetchConfig` and `fetchWidgetData` request `/api/config` and `/api/widgets/<id>` as they
      are, which are the server's routes exactly when the server has no prefix. */
  lemma UnprefixedPathsNeedRoot(server: ServerPaths.Server, id: string)
    ensures "/api/config" == server.ApiConfigPath() <==> server.pathPrefix == ""
    ensures "/api/widgets/" + id == server.ApiWidgetsPrefix() + id <==> server.pathPrefix == ""
  {
    if server.pathPrefix != "" {
      assert |server.ApiConfigPath()| > |"/api/config"|;
      assert |server.ApiWidgetsPrefix() + id| > |"/api/widgets/" + id|;
    }
  }
}
