/**
 * The asset-URL resolver that three pages carry as `getFileUrl` / `getThumbnailUrl`:
 * a stored file path becomes a URL on the asset host.
 */
module AssetUrl {
  import opened Wrappers
  import opened Js

  predicate StartsWith(s: string, prefix: string) {
    prefix <= s
  }

  predicate EndsWith(s: string, suffix: string) {
    |suffix| <= |s| && s[|s| - |suffix|..] == suffix
  }

  /**
   * Absent, empty or non-string paths resolve to nothing; a path that starts
   * with "http" is already a URL; anything else is placed under `base`.
   */
  function Resolve(base: string, path: MaybeText): (r: Option<string>)
    ensures r.None? <==> !(path.Text? && path.s != "")
    ensures r.Some? ==> EndsWith(r.value, path.s)
    ensures r.Some? && StartsWith(path.s, "http") ==> r.value == path.s
    ensures r.Some? && !StartsWith(path.s, "http") ==> StartsWith(r.value, base + "/")
  {
    if !path.Text? || path.s == "" then None
    else if StartsWith(path.s, "http") then Some(path.s)
    else if StartsWith(path.s, "/") then Some(base + path.s)
    else Some(base + "/" + path.s)
  }

  /** The four resolution rules, one per kind of path. */
  lemma ResolveRules(base: string, path: MaybeText)
    ensures !path.Text? || path.s == "" ==> Resolve(base, path) == None
    ensures path.Text? && path.s != "" && StartsWith(path.s, "http") ==> Resolve(base, path) == Some(path.s)
    ensures path.Text? && StartsWith(path.s, "/") ==> Resolve(base, path) == Some(base + path.s)
    ensures path.Text? && path.s != "" && !StartsWith(path.s, "http") && !StartsWith(path.s, "/")
      ==> Resolve(base, path) == Some(base + "/" + path.s)
  {
    if path.Text? && StartsWith(path.s, "/") {
      assert path.s[0] == '/';
    }
  }

  /** With an "http" base, resolving an already resolved URL returns it unchanged. */
  lemma ResolveIdempotent(base: string, path: MaybeText)
    requires StartsWith(base, "http")
    requires Resolve(base, path).Some?
    ensures Resolve(base, Text(Resolve(base, path).value)) == Resolve(base, path)
  {
    var u := Resolve(base, path).value;
    if !StartsWith(path.s, "http") {
      assert u[..|base|] == base;
      assert u[..4] == base[..4];
    }
  }

  /** A rooted path and the same path without its leading "/" resolve to the same URL. */
  lemma RootedAndBareAgree(base: string, s: string)
    requires s != "" && !StartsWith(s, "http") && !StartsWith(s, "/")
    ensures Resolve(base, Text("/" + s)) == Resolve(base, Text(s))
  {
    assert ("/" + s)[0] == '/';
    assert !StartsWith("/" + s, "http");
    assert base + ("/" + s) == base + "/" + s;
  }

  /** Any "http" prefix counts: a bare file name such as "http_x.png" is kept as it is, not placed under `base`. */
  lemma BareHttpNameKept(base: string)
    ensures Resolve(base, Text("http_x.png")) == Some("http_x.png")
  {
  }
}
