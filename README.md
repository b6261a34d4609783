# Route guard of a Next.js application, modelled in Dafny

The application's `middleware` runs before each request it is configured
for. It asks Supabase for the session attached to the request's cookies, then
decides, from the request's pathname and whether a session exists, whether the
request continues or is redirected to `/login`. The decision is a cascade
where the first match wins:

1. a pathname ending in `.png`, `.jpg`, `.jpeg`, `.gif`, `.svg` or `.ico`
   (case-sensitive), or having the raw prefix `/_next`, continues;
2. a pathname having one of `/login`, `/signup`, `/auth/callback`,
   `/forgot-password` as a raw string prefix continues (so `/loginx` does);
3. otherwise a request without a session is redirected to `/login` (the
   requested path is not carried along), and one with a session continues.

The exported `config.matcher` pattern decides whether the middleware runs at
all. It skips pathnames whose text after the leading `/` starts with
`_next/static`, `_next/image`, `favicon.ico`, `public` or `auth/callback`, or
that end in `.svg`, `.png`, `.jpg`, `.jpeg`, `.gif` or `.webp`.

The model has three modules:

- `Strings` (`strings.dfy`): JavaScript's `startsWith`, an end-anchored suffix
  alternation as in `\.(png|jpg)$`, and `some` over a list of prefixes, each
  recursive function proved equal to its "there is a listed entry" reading.
- `RouteGuard` (`route_guard.dfy`): the `Decision` datatype (`Allow` or
  `Redirect(target)`), the three classifiers, the decision function `Gate`,
  and the properties of the cascade.
- `Matcher` (`matcher.dfy`): the matcher pattern as a predicate on the
  pathname, read with JavaScript regular-expression semantics and anchored at
  both ends. `Outcome` is what a request meets once the matcher is in front of
  the gate.

The session lookup becomes the boolean `hasSession`, and the request URL
becomes its pathname.

## Model

| member | source | states |
|---|---|---|
| `Strings.SomeStartsWithIff` | middleware.ts:18 | `publicRoutes.some(route => path.startsWith(route))` holds exactly when some listed route is a prefix of the path |
| `Strings.EndsWithOneOfIff` | middleware.ts:19 | the end-anchored alternation matches exactly when one of the listed suffixes ends the path |
| `RouteGuard.Gate` | middleware.ts:26-44 | the cascade only ever redirects to the fixed target `/login`, never to the requested path |
| `RouteGuard.StaticAssetAllowed` | middleware.ts:19-29 | a path ending in any of the six image suffixes is an asset and continues, with or without a session |
| `RouteGuard.StaticAssetIff` | middleware.ts:19 | the asset test holds exactly for paths ending in `.png`, `.jpg`, `.jpeg`, `.gif`, `.svg` or `.ico` |
| `RouteGuard.NotStaticAssetByLastCharacter` | middleware.ts:19 | a path whose last character is not `g`, `f` or `o` is never an asset |
| `RouteGuard.NotPublicBySecondCharacter` | middleware.ts:6 | a path whose second character is not `l`, `s`, `a` or `f` is never public |
| `RouteGuard.UpperCaseExtensionIsProtected` | middleware.ts:19 | the suffix test is case-sensitive: `/LOGO.PNG` is not an asset and is redirected without a session |
| `RouteGuard.NextAssetAllowed` | middleware.ts:20-29 | a path with the raw prefix `/_next` continues, with or without a session |
| `RouteGuard.PublicRouteAllowed` | middleware.ts:18-35 | a path having any public route as a prefix is public and continues, with or without a session |
| `RouteGuard.PublicRouteIff` | middleware.ts:6 | the public test holds exactly for the prefixes `/login`, `/signup`, `/auth/callback`, `/forgot-password` |
| `RouteGuard.PublicPrefixIsRaw` | middleware.ts:18 | `/login` followed by any text, such as `/loginx`, is public: the test is not by path segment |
| `RouteGuard.ProtectedDecidedBySession` | middleware.ts:37-44 | on a path that is neither asset nor public, a session gives `Allow` and its absence gives `Redirect("/login")` |
| `RouteGuard.GateCharacterized` | middleware.ts:8-45 | exactly one of `Allow` and `Redirect("/login")` results; `Allow` iff asset, `/_next`, public or session; redirect iff protected and no session |
| `RouteGuard.SessionOnlyLoosens` | middleware.ts:38-44 | with a session every path continues; whatever continues without a session continues with one |
| `RouteGuard.NoRedirectLoop` | middleware.ts:38-41 | the target of any redirect is itself public and allowed whatever the session state |
| `RouteGuard.LoginAllowed` | middleware.ts:6 | `/login` continues with and without a session |
| `RouteGuard.DashboardWithoutSession` | middleware.ts:38-41 | `/dashboard` without a session is redirected to `/login` |
| `RouteGuard.LogoWithoutSession` | middleware.ts:26-29 | `/logo.png` without a session continues |
| `RouteGuard.NextChunkWithoutSession` | middleware.ts:20 | `/_next/static/chunk.js` is no image, yet continues without a session through the `/_next` test |
| `RouteGuard.SettingsWithSession` | middleware.ts:43-44 | `/settings` is protected and continues with a session |
| `Matcher.Outcome` | middleware.ts:57 | a request whose path the matcher does not select continues untouched |
| `Matcher.SkipsListedPrefix` | middleware.ts:57 | the gate does not run for paths whose text after `/` starts with `_next/static`, `_next/image`, `public` or `auth/callback` |
| `Matcher.SkipsFavicon` | middleware.ts:57 | the gate does not run for paths whose text after `/` starts with `favicon.ico` |
| `Matcher.SkipsMediaFile` | middleware.ts:57 | the gate does not run for paths ending in `.svg`, `.png`, `.jpg`, `.jpeg`, `.gif` or `.webp` |
| `Matcher.RunsOtherwise` | middleware.ts:57 | conversely the gate runs for every other `/`-rooted path free of line terminators |
| `Matcher.OutcomeCharacterized` | middleware.ts:57 | with the matcher in front, a redirect to `/login` happens iff the matcher selects the path, it is protected and there is no session |
| `Matcher.OutcomeNoRedirectLoop` | middleware.ts:40 | following a redirect is allowed whatever the session state, matcher included |
| `Matcher.ImagesServed` | middleware.ts:57 | a path ending in any image suffix named by the gate or the matcher continues without a session |
| `Matcher.SkippedNextPathsAllowedByGate` | middleware.ts:20 | the `_next/static` and `_next/image` paths the matcher skips are ones the gate would allow anyway |
| `Matcher.PublicFolderPrefixIsRaw` | middleware.ts:57 | `public` is a raw prefix: `/publications` never meets the gate, though the gate alone would redirect it |
| `Matcher.FaviconDashSelected` | middleware.ts:57 | with the dot read literally, `/favicon-ico` is selected by the matcher |
| `Matcher.FaviconDashProtected` | middleware.ts:18-20 | `/favicon-ico` is neither an asset nor a public route |
| `Matcher.FaviconWildcardBypass` | middleware.ts:57 | as written, `/favicon-ico` skips the gate; with the dot literal it is redirected without a session |
| `Matcher.FaviconReadingsDiffer` | middleware.ts:57 | the pattern as written selects a subset of what the literal reading selects, differing only on `favicon`, a non-dot character, `ico` |

## Findings

| source | as written | input that shows it | evidently intended | confidence | as-written member | corrected member |
|---|---|---|---|---|---|---|
| middleware.ts:57 | the lookahead branch `favicon.ico` has an unescaped `.`, which matches any character but a line terminator | `/favicon-ico` without a session: the matcher skips it, so the request continues unauthenticated | only the file `favicon.ico` is skipped (the comment beside the pattern names the favicon file), so `/favicon-ico` meets the gate and is redirected to `/login` | medium, not executed | `Matcher.MatchesAsWritten`, shown by `Matcher.FaviconWildcardBypass` | `Matcher.Matches`, used by `Matcher.Outcome`, with `Matcher.FaviconReadingsDiffer` |

## Left out

- The Supabase client and `supabase.auth.getSession()`, with its token refresh and network I/O: only whether a session came back is modelled, as `hasSession`. A lookup that fails or throws has no defined behaviour in the source and is not modelled.
- `NextResponse.next()`, `NextResponse.redirect` and URL parsing: the pathname is taken as already extracted, and a redirect is its target path. Resolving the target against the request's origin is not modelled.
- The `console.log` diagnostics: they do not affect the decision.
- `async`/`await`: each call is independent and shares no state, so there is no concurrency to model.
- Matcher.Matches: the pattern is read as a JavaScript regular expression anchored at both ends of the pathname. Next.js's own translation of matcher strings (path-to-regexp, trailing slashes, locale prefixes and `.json` data routes) is not part of this model.
- Matcher.Outcome: uses the literal reading of `favicon.ico` (see Findings). The behaviour as written is `Matcher.MatchesAsWritten`.
- Regular expressions in general: the two patterns are written out as prefix and suffix predicates, not through a regex engine.
