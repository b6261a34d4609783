/** The decision `middleware` takes for one request, once the session lookup
    has been reduced to `hasSession` and the URL to its pathname. */
module RouteGuard {
  import opened Strings

  /** What the middleware returns: the response that lets the request
      continue, or a redirect whose target path is `target`. */
  datatype Decision = Allow | Redirect(target: string)

  /** The routes reachable without a session. */
  const PublicRoutes: seq<string> := ["/login", "/signup", "/auth/callback", "/forgot-password"]

  /** The static-asset pattern `\.(png|jpg|jpeg|gif|svg|ico)$` as the
      suffixes it accepts, in pattern order. */
  const ImageSuffixes: seq<string> := [".png", ".jpg", ".jpeg", ".gif", ".svg", ".ico"]

  /** The prefix of the framework's own build output and image routes. */
  const NextPrefix := "/_next"

  /** Where a request without a session is sent; the requested path is dropped. */
  const LoginPath := "/login"

  /** `isStaticAsset`: the pathname ends with `.` and an image extension. */
  predicate IsStaticAsset(path: string) {
    EndsWithOneOf(path, ImageSuffixes)
  }

  /** `isNextAsset`: the pathname has the raw prefix `/_next`. */
  predicate IsNextAsset(path: string) {
    StartsWith(path, NextPrefix)
  }

  /** `isPublicRoute`: the pathname has one of the public routes as a raw prefix. */
  predicate IsPublicRoute(path: string) {
    SomeStartsWith(PublicRoutes, path)
  }

  /** Neither an asset nor a public route: only a session lets it through. */
  predicate IsProtected(path: string) {
    !IsStaticAsset(path) && !IsNextAsset(path) && !IsPublicRoute(path)
  }

  /** The cascade of early returns: assets first, then public routes, then the
      session test. */
  function Gate(path: string, hasSession: bool): (d: Decision)
    ensures d.Redirect? ==> d.target == LoginPath
  {
    if IsStaticAsset(path) || IsNextAsset(path) then Allow
    else if IsPublicRoute(path) then Allow
    else if !hasSession then Redirect(LoginPath)
    else Allow
  }

  /** Any path ending in one of the six image suffixes passes,
      with or without a session. */
  lemma StaticAssetAllowed(path: string, i: nat, hasSession: bool)
    requires i < |ImageSuffixes| && EndsWith(path, ImageSuffixes[i])
    ensures IsStaticAsset(path) && Gate(path, hasSession) == Allow
  {
    EndsWithOneOfIff(path, ImageSuffixes);
  }

  /** The extension test is case-sensitive: an upper-case extension is not an
      asset, so without a session it is redirected like any protected page. */
  lemma UpperCaseExtensionIsProtected()
    ensures !IsStaticAsset("/LOGO.PNG") && Gate("/LOGO.PNG", false) == Redirect(LoginPath)
  {
    NotStaticAssetByLastCharacter("/LOGO.PNG");
    NotPublicBySecondCharacter("/LOGO.PNG");
  }

  /** Any path with the raw prefix `/_next` passes, with or without a session. */
  lemma NextAssetAllowed(path: string, hasSession: bool)
    requires StartsWith(path, "/_next")
    ensures Gate(path, hasSession) == Allow
  {
  }

  /** Any path with a public route as a raw prefix passes, with or without a
      session. */
  lemma PublicRouteAllowed(path: string, i: nat, hasSession: bool)
    requires i < |PublicRoutes| && StartsWith(path, PublicRoutes[i])
    ensures IsPublicRoute(path) && Gate(path, hasSession) == Allow
  {
    SomeStartsWithIff(PublicRoutes, path);
  }

  /** The public test is a string prefix, not a path segment: `/login` followed
      by anything, such as `/loginx`, is public too. */
  lemma PublicPrefixIsRaw(suffix: string, hasSession: bool)
    ensures IsPublicRoute(LoginPath + suffix) && Gate(LoginPath + suffix, hasSession) == Allow
  {
    assert StartsWith(LoginPath + suffix, PublicRoutes[0]);
    PublicRouteAllowed(LoginPath + suffix, 0, hasSession);
  }

  /** The public test holds exactly for the four listed prefixes. */
  lemma PublicRouteIff(path: string)
    ensures IsPublicRoute(path) <==>
            StartsWith(path, "/login") || StartsWith(path, "/signup") ||
            StartsWith(path, "/auth/callback") || StartsWith(path, "/forgot-password")
  {
    SomeStartsWithIff(PublicRoutes, path);
    if StartsWith(path, "/login") { assert StartsWith(path, PublicRoutes[0]); }
    if StartsWith(path, "/signup") { assert StartsWith(path, PublicRoutes[1]); }
    if StartsWith(path, "/auth/callback") { assert StartsWith(path, PublicRoutes[2]); }
    if StartsWith(path, "/forgot-password") { assert StartsWith(path, PublicRoutes[3]); }
  }

  /** The asset test holds exactly for the six listed extensions. */
  lemma StaticAssetIff(path: string)
    ensures IsStaticAsset(path) <==>
            EndsWith(path, ".png") || EndsWith(path, ".jpg") || EndsWith(path, ".jpeg") ||
            EndsWith(path, ".gif") || EndsWith(path, ".svg") || EndsWith(path, ".ico")
  {
    EndsWithOneOfIff(path, ImageSuffixes);
    if EndsWith(path, ".png") { assert EndsWith(path, ImageSuffixes[0]); }
    if EndsWith(path, ".jpg") { assert EndsWith(path, ImageSuffixes[1]); }
    if EndsWith(path, ".jpeg") { assert EndsWith(path, ImageSuffixes[2]); }
    if EndsWith(path, ".gif") { assert EndsWith(path, ImageSuffixes[3]); }
    if EndsWith(path, ".svg") { assert EndsWith(path, ImageSuffixes[4]); }
    if EndsWith(path, ".ico") { assert EndsWith(path, ImageSuffixes[5]); }
  }

  /** Every image suffix ends in `g`, `f` or `o`: a path ending in any other
      character is not a static asset. */
  lemma NotStaticAssetByLastCharacter(path: string)
    requires |path| > 0 && path[|path| - 1] !in {'g', 'f', 'o'}
    ensures !IsStaticAsset(path)
  {
    StaticAssetIff(path);
    LastCharacterRulesOut(path, ".png");
    LastCharacterRulesOut(path, ".jpg");
    LastCharacterRulesOut(path, ".jpeg");
    LastCharacterRulesOut(path, ".gif");
    LastCharacterRulesOut(path, ".svg");
    LastCharacterRulesOut(path, ".ico");
  }

  /** Every public route starts with `/l`, `/s`, `/a` or `/f`: a path whose
      second character is none of those is not public. */
  lemma NotPublicBySecondCharacter(path: string)
    requires |path| > 1 && path[1] !in {'l', 's', 'a', 'f'}
    ensures !IsPublicRoute(path)
  {
    PublicRouteIff(path);
    PrefixMismatch(path, "/login", 1);
    PrefixMismatch(path, "/signup", 1);
    PrefixMismatch(path, "/auth/callback", 1);
    PrefixMismatch(path, "/forgot-password", 1);
  }

  /** On a protected path the session alone decides: a session lets it
      through, its absence redirects to `/login`. */
  lemma ProtectedDecidedBySession(path: string, hasSession: bool)
    requires IsProtected(path)
    ensures hasSession ==> Gate(path, hasSession) == Allow
    ensures !hasSession ==> Gate(path, hasSession) == Redirect("/login")
  {
  }

  /** Exactly one decision per request, and it is a redirect to `/login` iff
      the path is protected and there is no session. */
  lemma GateCharacterized(path: string, hasSession: bool)
    ensures Gate(path, hasSession) == Allow <==>
            IsStaticAsset(path) || IsNextAsset(path) || IsPublicRoute(path) || hasSession
    ensures Gate(path, hasSession) == Redirect("/login") <==> IsProtected(path) && !hasSession
    ensures Gate(path, hasSession) == Allow || Gate(path, hasSession) == Redirect("/login")
  {
  }

  /** A session never makes the decision stricter: whatever passes without a
      session passes with one. */
  lemma SessionOnlyLoosens(path: string)
    ensures Gate(path, false) == Allow ==> Gate(path, true) == Allow
    ensures Gate(path, true) == Allow
  {
  }

  /** No redirect loop: the target of every redirect is itself public, so
      following it is allowed whatever the session state. */
  lemma NoRedirectLoop(path: string, hasSession: bool, hasSessionLater: bool)
    ensures Gate(path, hasSession).Redirect? ==>
            IsPublicRoute(Gate(path, hasSession).target) &&
            Gate(Gate(path, hasSession).target, hasSessionLater) == Allow
  {
    PublicPrefixIsRaw("", hasSessionLater);
    assert LoginPath + "" == LoginPath;
  }

  /** The login page itself is allowed with and without a session. */
  lemma LoginAllowed(hasSession: bool)
    ensures Gate("/login", hasSession) == Allow
  {
    PublicPrefixIsRaw("", hasSession);
    assert LoginPath + "" == "/login";
  }

  /** A protected page without a session is redirected to `/login`. */
  lemma DashboardWithoutSession()
    ensures Gate("/dashboard", false) == Redirect("/login")
  {
    NotStaticAssetByLastCharacter("/dashboard");
    NotPublicBySecondCharacter("/dashboard");
  }

  /** An image under the site root is served without a session. */
  lemma LogoWithoutSession()
    ensures Gate("/logo.png", false) == Allow
  {
    StaticAssetAllowed("/logo.png", 0, false);
  }

  /** A framework chunk is served without a session, although `.js` is not an
      image extension. */
  lemma NextChunkWithoutSession()
    ensures !IsStaticAsset("/_next/static/chunk.js")
    ensures Gate("/_next/static/chunk.js", false) == Allow
  {
    NotStaticAssetByLastCharacter("/_next/static/chunk.js");
  }

  /** A protected page with a session is served. */
  lemma SettingsWithSession()
    ensures IsProtected("/settings") && Gate("/settings", true) == Allow
  {
    NotStaticAssetByLastCharacter("/settings");
    PublicRouteIff("/settings");
    PrefixMismatch("/settings", "/login", 1);
    PrefixMismatch("/settings", "/signup", 2);
    PrefixMismatch("/settings", "/auth/callback", 1);
    PrefixMismatch("/settings", "/forgot-password", 1);
  }
}
