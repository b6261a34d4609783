/** The `config.matcher` pattern that decides whether `middleware` runs at all,
    and the decision a request meets once that pattern is taken into account.
    The pattern is read as a JavaScript regular expression anchored at both
    ends of the pathname:
      `/` then, unless the negative lookahead matches, `.*` to the end. */
module Matcher {
  import opened Strings
  import opened RouteGuard

  /** The characters JavaScript's `.` does not match (no `s` flag). */
  predicate IsLineTerminator(c: char) {
    c == '\n' || c == '\r' || c == '\U{2028}' || c == '\U{2029}'
  }

  /** `s` can be consumed by `.*`. */
  predicate NoLineTerminator(s: string) {
    forall i :: 0 <= i < |s| ==> !IsLineTerminator(s[i])
  }

  /** The literal alternatives of the lookahead, besides `favicon.ico`. */
  const SkippedPrefixes: seq<string> := ["_next/static", "_next/image", "public", "auth/callback"]

  /** The alternation of the lookahead's last branch `\.(?:svg|png|jpg|jpeg|gif|webp)$`. */
  const MediaSuffixes: seq<string> := [".svg", ".png", ".jpg", ".jpeg", ".gif", ".webp"]

  /** The branch `.*\.(?:svg|…)$` tried right after the leading `/`. Neither the
      dot nor the extensions hold a line terminator, so `.*` reaching the
      suffix means the whole rest is free of them. */
  predicate MediaFileAhead(rest: string) {
    EndsWithOneOf(rest, MediaSuffixes) && NoLineTerminator(rest)
  }

  /** The branch `favicon.ico` as written: its unescaped `.` stands for any
      character but a line terminator. */
  predicate FaviconAsWritten(rest: string) {
    |rest| >= 11 && rest[..7] == "favicon" && !IsLineTerminator(rest[7]) && rest[8..11] == "ico"
  }

  /** The branch `favicon.ico` read as the file name it names. */
  predicate FaviconLiteral(rest: string) {
    StartsWith(rest, "favicon.ico")
  }

  /** The negative lookahead as written. */
  predicate SkippedAsWritten(rest: string) {
    SomeStartsWith(SkippedPrefixes, rest) || FaviconAsWritten(rest) || MediaFileAhead(rest)
  }

  /** The negative lookahead with the favicon dot taken literally. */
  predicate Skipped(rest: string) {
    SomeStartsWith(SkippedPrefixes, rest) || FaviconLiteral(rest) || MediaFileAhead(rest)
  }

  /** The whole pattern as written matches the pathname: the gate runs. */
  predicate MatchesAsWritten(path: string) {
    |path| > 0 && path[0] == '/' && !SkippedAsWritten(path[1..]) && NoLineTerminator(path[1..])
  }

  /** The whole pattern, favicon dot literal, matches the pathname. */
  predicate Matches(path: string) {
    |path| > 0 && path[0] == '/' && !Skipped(path[1..]) && NoLineTerminator(path[1..])
  }

  /** What a request meets: the gate when the matcher selects its path, the
      untouched request otherwise. */
  function Outcome(path: string, hasSession: bool): (d: Decision)
    ensures !Matches(path) ==> d == Allow
  {
    if Matches(path) then Gate(path, hasSession) else Allow
  }

  /** Dropping the leading `/` of `"/" + rest` gives back `rest`. */
  lemma TailOfRooted(rest: string)
    ensures |"/" + rest| > 0 && ("/" + rest)[0] == '/' && ("/" + rest)[1..] == rest
  {
  }

  /** The gate is not run for a path whose text after the leading `/` starts
      with `_next/static`, `_next/image`, `public` or `auth/callback`. */
  lemma SkipsListedPrefix(rest: string, i: nat, hasSession: bool)
    requires i < |SkippedPrefixes| && StartsWith(rest, SkippedPrefixes[i])
    ensures !Matches("/" + rest) && !MatchesAsWritten("/" + rest)
    ensures Outcome("/" + rest, hasSession) == Allow
  {
    TailOfRooted(rest);
    SomeStartsWithIff(SkippedPrefixes, rest);
  }

  /** Nor for the favicon. */
  lemma SkipsFavicon(rest: string, hasSession: bool)
    requires StartsWith(rest, "favicon.ico")
    ensures !Matches("/" + rest) && !MatchesAsWritten("/" + rest)
    ensures Outcome("/" + rest, hasSession) == Allow
  {
    TailOfRooted(rest);
    assert rest[..11] == "favicon.ico";
    assert rest[..7] == rest[..11][..7];
    assert rest[8..11] == rest[..11][8..11];
  }

  /** Nor for a path ending in one of the media suffixes. */
  lemma SkipsMediaFile(path: string, i: nat, hasSession: bool)
    requires i < |MediaSuffixes| && EndsWith(path, MediaSuffixes[i])
    ensures !Matches(path) && !MatchesAsWritten(path)
    ensures Outcome(path, hasSession) == Allow
  {
    if |path| > 0 && path[0] == '/' && NoLineTerminator(path[1..]) {
      var suffix := MediaSuffixes[i];
      assert suffix[0] == '.';
      assert |suffix| < |path|;
      assert path[1..][|path| - 1 - |suffix|..] == path[|path| - |suffix|..];
      assert EndsWith(path[1..], MediaSuffixes[i]);
      EndsWithOneOfIff(path[1..], MediaSuffixes);
    }
  }

  /** Conversely the gate runs for every other rooted path free of line
      terminators. */
  lemma RunsOtherwise(rest: string)
    requires NoLineTerminator(rest)
    requires forall i :: 0 <= i < |SkippedPrefixes| ==> !StartsWith(rest, SkippedPrefixes[i])
    requires !StartsWith(rest, "favicon.ico")
    requires forall i :: 0 <= i < |MediaSuffixes| ==> !EndsWith(rest, MediaSuffixes[i])
    ensures Matches("/" + rest)
  {
    TailOfRooted(rest);
    SomeStartsWithIff(SkippedPrefixes, rest);
    EndsWithOneOfIff(rest, MediaSuffixes);
  }

  /** With the matcher in front, a request is redirected to `/login` exactly
      when the matcher selects it, its path is protected and it has no
      session; every other request continues. */
  lemma OutcomeCharacterized(path: string, hasSession: bool)
    ensures Outcome(path, hasSession) == Redirect("/login") <==>
            Matches(path) && IsProtected(path) && !hasSession
    ensures Outcome(path, hasSession) == Allow || Outcome(path, hasSession) == Redirect("/login")
  {
    GateCharacterized(path, hasSession);
  }

  /** No redirect loop through the matcher either: the redirect target is
      allowed whatever the session state. */
  lemma OutcomeNoRedirectLoop(path: string, hasSession: bool, hasSessionLater: bool)
    ensures Outcome(path, hasSession).Redirect? ==>
            Outcome(Outcome(path, hasSession).target, hasSessionLater) == Allow
  {
    LoginAllowed(hasSessionLater);
  }

  /** Every image the gate or the matcher names is served without a session:
      the gate lets `.ico` through, the matcher never sends `.webp` to the gate. */
  lemma ImagesServed(path: string, suffix: string, hasSession: bool)
    requires suffix in ImageSuffixes + MediaSuffixes && EndsWith(path, suffix)
    ensures Outcome(path, hasSession) == Allow
  {
    if suffix in ImageSuffixes {
      var i :| 0 <= i < |ImageSuffixes| && ImageSuffixes[i] == suffix;
      StaticAssetAllowed(path, i, hasSession);
    } else {
      var i :| 0 <= i < |MediaSuffixes| && MediaSuffixes[i] == suffix;
      SkipsMediaFile(path, i, hasSession);
    }
  }

  /** The framework paths the matcher skips are ones the gate would allow
      anyway, so skipping them changes no decision. */
  lemma SkippedNextPathsAllowedByGate(rest: string, hasSession: bool)
    requires StartsWith(rest, "_next/static") || StartsWith(rest, "_next/image")
    ensures Gate("/" + rest, hasSession) == Allow
  {
    var skipped := if StartsWith(rest, "_next/static") then "_next/static" else "_next/image";
    assert rest[..5] == rest[..|skipped|][..5] == "_next";
    assert ("/" + rest)[..6] == "/" + rest[..5];
  }

  /** `public` is a raw prefix too: a page such as `/publications` never meets
      the gate, although the gate alone would redirect it. */
  lemma PublicFolderPrefixIsRaw()
    ensures Gate("/publications", false) == Redirect("/login")
    ensures Outcome("/publications", false) == Allow
  {
    var path := "/publications";
    NotStaticAssetByLastCharacter(path);
    NotPublicBySecondCharacter(path);
    assert StartsWith("publications", SkippedPrefixes[2]);
    SkipsListedPrefix("publications", 2, false);
    TailOfRooted("publications");
  }

  /** `/favicon-ico` falls under none of the literal exclusions. */
  lemma FaviconDashSelected()
    ensures Matches("/favicon-ico")
  {
    var rest := "favicon-ico";
    assert !StartsWith(rest, "favicon.ico") by {
      assert rest[7] != "favicon.ico"[7];
    }
    forall i | 0 <= i < |SkippedPrefixes|
      ensures !StartsWith(rest, SkippedPrefixes[i])
    {
      assert SkippedPrefixes[i][0] != rest[0];
    }
    forall i | 0 <= i < |MediaSuffixes|
      ensures !EndsWith(rest, MediaSuffixes[i])
    {
      LastCharacterRulesOut(rest, MediaSuffixes[i]);
    }
    RunsOtherwise(rest);
  }

  /** `/favicon-ico` is neither an asset nor a public route for the gate. */
  lemma FaviconDashProtected()
    ensures IsProtected("/favicon-ico")
  {
    var path := "/favicon-ico";
    StaticAssetIff(path);
    LastCharacterRulesOut(path, ".png");
    LastCharacterRulesOut(path, ".jpg");
    LastCharacterRulesOut(path, ".jpeg");
    LastCharacterRulesOut(path, ".gif");
    LastCharacterRulesOut(path, ".svg");
    SuffixMismatch(path, ".ico", 0);
    PublicRouteIff(path);
    PrefixMismatch(path, "/login", 1);
    PrefixMismatch(path, "/signup", 1);
    PrefixMismatch(path, "/auth/callback", 1);
    PrefixMismatch(path, "/forgot-password", 2);
  }

  /** As written, the unescaped dot of `favicon.ico` lets a protected page such
      as `/favicon-ico` bypass the gate; read literally it is redirected. */
  lemma FaviconWildcardBypass()
    ensures !MatchesAsWritten("/favicon-ico")
    ensures Matches("/favicon-ico")
    ensures Outcome("/favicon-ico", false) == Redirect("/login")
  {
    TailOfRooted("favicon-ico");
    assert FaviconAsWritten("favicon-ico");
    FaviconDashSelected();
    FaviconDashProtected();
  }

  /** The two readings differ only there: whatever the pattern as written
      selects the literal reading selects too, and a path the literal reading
      alone selects spells `favicon`, a non-dot character and `ico`. */
  lemma FaviconReadingsDiffer(path: string)
    ensures MatchesAsWritten(path) ==> Matches(path)
    ensures Matches(path) && !MatchesAsWritten(path) ==>
            FaviconAsWritten(path[1..]) && path[8] != '.'
  {
    if |path| > 0 && path[0] == '/' && FaviconLiteral(path[1..]) {
      var rest := path[1..];
      assert rest[..11] == "favicon.ico";
      assert rest[..7] == rest[..11][..7];
      assert rest[8..11] == rest[..11][8..11];
    }
  }
}
