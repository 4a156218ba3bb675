/**
 * The request body check on `url`: the pattern
 * `^(https?:\/\/)?(www\.)?(youtube\.com|youtu\.?be)\/.+$` (no flags), with
 * the message "URL must be a valid YouTube URL" when it does not match.
 */
module RequestValidation {
  import opened Wrappers
  import opened Strings

  const INVALID_YOUTUBE_URL_MESSAGE := "URL must be a valid YouTube URL"

  const HTTP := "http://"
  const HTTPS := "https://"
  const WWW := "www."
  const YOUTUBE_COM := "youtube.com"
  const YOUTU_BE := "youtu.be"
  const YOUTUBE := "youtube"

  /** The alternatives of each optional or alternated group of the pattern. */
  const SCHEMES: seq<string> := ["", HTTP, HTTPS]
  const WWW_PREFIXES: seq<string> := ["", WWW]
  const HOSTS: seq<string> := [YOUTUBE_COM, YOUTU_BE, YOUTUBE]

  /** The characters `.` does not match without the `s` flag. */
  predicate IsLineTerminator(c: char) {
    c == '\n' || c == '\r' || c == '\U{2028}' || c == '\U{2029}'
  }

  /** `.+$`: at least one character, none of them a line terminator. */
  predicate IsDotPlus(rest: string) {
    |rest| > 0 && forall i :: 0 <= i < |rest| ==> !IsLineTerminator(rest[i])
  }

  /** `s` is scheme, `www.` part, host, `/` and a tail `.+` matches. */
  predicate MatchesWith(s: string, scheme: string, www: string, host: string) {
    var prefix := scheme + www + host + "/";
    StartsWith(s, prefix) && IsDotPlus(s[|prefix|..])
  }

  /** The pattern, read declaratively: some choice of its alternatives spells out `s`. */
  predicate PatternMatches(s: string) {
    exists scheme, www, host :: scheme in SCHEMES && www in WWW_PREFIXES && host in HOSTS && MatchesWith(s, scheme, www, host)
  }

  /** `(https?:\/\/)?`, taken greedily: `https://`, else `http://`, else nothing. */
  function SchemeLength(s: string): (n: nat)
    ensures n <= |s|
    ensures n > 0 ==> StartsWith(s, if n == 8 then HTTPS else HTTP)
  {
    if StartsWith(s, HTTPS) then 8 else if StartsWith(s, HTTP) then 7 else 0
  }

  /** `(www\.)?`, taken greedily. */
  function WwwLength(s: string): (n: nat)
    ensures n <= |s|
    ensures n > 0 ==> n == 4 && StartsWith(s, WWW)
  {
    if StartsWith(s, WWW) then 4 else 0
  }

  /** The host alternative that `s` starts with followed by `/`, if any. */
  function HostOf(s: string): (h: Option<string>)
    ensures h.Some? ==> h.value in HOSTS && StartsWith(s, h.value + "/")
  {
    if StartsWith(s, YOUTUBE_COM + "/") then Some(YOUTUBE_COM)
    else if StartsWith(s, YOUTU_BE + "/") then Some(YOUTU_BE)
    else if StartsWith(s, YOUTUBE + "/") then Some(YOUTUBE)
    else None
  }

  /** A left-to-right matcher for the pattern, committing to the first alternative that fits. */
  function Matches(s: string): bool {
    var afterScheme := s[SchemeLength(s)..];
    var afterWww := afterScheme[WwwLength(afterScheme)..];
    match HostOf(afterWww)
    case None => false
    case Some(host) => IsDotPlus(afterWww[|host| + 1..])
  }

  /** The validation error for `url`, if any. */
  function Validate(url: string): (error: Option<string>)
    ensures error.None? <==> PatternMatches(url)
    ensures error.Some? ==> error.value == INVALID_YOUTUBE_URL_MESSAGE
  {
    MatchesIffPattern(url);
    if Matches(url) then None else Some(INVALID_YOUTUBE_URL_MESSAGE)
  }

  /** Prefixes compose: `a` then `b` at the front of `s` is `a + b` at its front. */
  lemma StartsWithConcat(s: string, a: string, b: string)
    ensures StartsWith(s, a) && StartsWith(s[|a|..], b) <==> StartsWith(s, a + b)
    ensures StartsWith(s, a + b) ==> s[|a + b|..] == s[|a|..][|b|..]
  {
    if StartsWith(s, a + b) {
      assert s[..|a|] == (a + b)[..|a|];
      assert s[|a|..][..|b|] == (a + b)[|a|..];
    }
    if StartsWith(s, a) && StartsWith(s[|a|..], b) {
      assert s[..|a + b|] == s[..|a|] + s[|a|..][..|b|];
    }
  }

  /** The prefix a match uses splits into its three groups and the `/`, read left to right. */
  lemma Decompose(s: string, scheme: string, www: string, host: string)
    requires StartsWith(s, scheme + www + host + "/")
    ensures StartsWith(s, scheme)
    ensures StartsWith(s[|scheme|..], www)
    ensures StartsWith(s[|scheme|..][|www|..], host + "/")
    ensures s[|scheme|..][|www|..][|host| + 1..] == s[|scheme + www + host + "/"|..]
  {
    assert scheme + www + host + "/" == scheme + (www + (host + "/"));
    StartsWithConcat(s, scheme, www + (host + "/"));
    StartsWithConcat(s[|scheme|..], www, host + "/");
  }

  /** A string that starts with `www.` or a host has no scheme before it: the scheme is forced. */
  lemma SchemeForced(s: string, scheme: string, rest: string)
    requires scheme in SCHEMES && StartsWith(s, scheme)
    requires StartsWith(s[|scheme|..], rest) && |rest| > 0 && (rest[0] == 'w' || rest[0] == 'y')
    ensures SchemeLength(s) == |scheme|
  {
    var t := s[|scheme|..];
    assert t[0] == rest[0];
    if scheme == "" {
      assert s[0] == t[0];
      assert !StartsWith(s, HTTPS) by { assert HTTPS[0] == 'h'; }
      assert !StartsWith(s, HTTP) by { assert HTTP[0] == 'h'; }
    } else if scheme == HTTP {
      assert s[..7] == HTTP;
      assert s[7] == t[0];
      assert !StartsWith(s, HTTPS) by { assert HTTPS[4] == 's' && HTTP[4] == ':'; assert s[4] == HTTP[4]; }
    } else {
      assert s[..8] == HTTPS;
    }
  }

  /** After the scheme, `www.` is taken exactly when the match uses it. */
  lemma WwwForced(t: string, www: string, host: string)
    requires www in WWW_PREFIXES && host in HOSTS
    requires StartsWith(t, www) && StartsWith(t[|www|..], host + "/")
    ensures WwwLength(t) == |www|
  {
    if www == "" {
      assert t[0] == (host + "/")[0] == 'y';
      assert !StartsWith(t, WWW) by { assert WWW[0] == 'w'; }
    } else {
      assert t[..4] == WWW;
    }
  }

  /** The host alternatives never overlap once the `/` is required after them. */
  lemma HostForced(u: string, host: string)
    requires host in HOSTS && StartsWith(u, host + "/")
    ensures HostOf(u) == Some(host)
  {
    var p := host + "/";
    assert u[..|p|] == p;
    if host == YOUTUBE_COM {
    } else if host == YOUTU_BE {
      assert u[5] == '.';
      assert !StartsWith(u, YOUTUBE_COM + "/") by { assert (YOUTUBE_COM + "/")[5] == 'b'; }
    } else {
      assert u[5] == 'b' && u[7] == '/';
      assert !StartsWith(u, YOUTUBE_COM + "/") by { assert (YOUTUBE_COM + "/")[7] == '.'; }
      assert !StartsWith(u, YOUTU_BE + "/") by { assert (YOUTU_BE + "/")[5] == '.'; }
    }
  }

  /**
   * Whatever alternatives spell out the front of `s`, the matcher makes
   * the same choices and is left with the same tail.
   */
  lemma ChoicesForced(s: string, scheme: string, www: string, host: string)
    requires scheme in SCHEMES && www in WWW_PREFIXES && host in HOSTS
    requires StartsWith(s, scheme + www + host + "/")
    ensures SchemeLength(s) == |scheme|
    ensures WwwLength(s[|scheme|..]) == |www|
    ensures HostOf(s[|scheme|..][|www|..]) == Some(host)
    ensures Matches(s) == IsDotPlus(s[|scheme + www + host + "/"|..])
  {
    Decompose(s, scheme, www, host);
    var t := s[|scheme|..];
    WwwForced(t, www, host);
    if www == "" {
      SchemeForced(s, scheme, host + "/");
    } else {
      SchemeForced(s, scheme, www);
    }
    HostForced(t[|www|..], host);
  }

  /** The scheme the matcher takes is one of the alternatives. */
  lemma SchemeTaken(s: string)
    ensures s[..SchemeLength(s)] in SCHEMES
  {
    var n := SchemeLength(s);
    if n == 8 {
      assert s[..n] == HTTPS;
    } else if n == 7 {
      assert s[..n] == HTTP;
    } else {
      assert s[..n] == SCHEMES[0];
    }
  }

  /** The `www.` part the matcher takes is one of the alternatives. */
  lemma WwwTaken(t: string)
    ensures t[..WwwLength(t)] in WWW_PREFIXES
  {
    if WwwLength(t) == 4 {
      assert t[..4] == WWW_PREFIXES[1];
    } else {
      assert t[..0] == WWW_PREFIXES[0];
    }
  }

  /** The converse of `Decompose`: the groups read left to right put the match back together. */
  lemma Reassemble(s: string, scheme: string, www: string, host: string)
    requires StartsWith(s, scheme)
    requires StartsWith(s[|scheme|..], www)
    requires StartsWith(s[|scheme|..][|www|..], host + "/")
    requires IsDotPlus(s[|scheme|..][|www|..][|host| + 1..])
    ensures MatchesWith(s, scheme, www, host)
  {
    StartsWithConcat(s[|scheme|..], www, host + "/");
    StartsWithConcat(s, scheme, www + (host + "/"));
    assert scheme + www + host + "/" == scheme + (www + (host + "/"));
  }

  /** The matcher accepts only strings the pattern describes. */
  lemma MatchesSound(s: string)
    requires Matches(s)
    ensures PatternMatches(s)
  {
    var n := SchemeLength(s);
    var m := WwwLength(s[n..]);
    var host := HostOf(s[n..][m..]).value;
    SchemeTaken(s);
    WwwTaken(s[n..]);
    Reassemble(s, s[..n], s[n..][..m], host);
  }

  /** The matcher accepts every string the pattern describes. */
  lemma MatchesComplete(s: string, scheme: string, www: string, host: string)
    requires scheme in SCHEMES && www in WWW_PREFIXES && host in HOSTS
    requires MatchesWith(s, scheme, www, host)
    ensures Matches(s)
  {
    ChoicesForced(s, scheme, www, host);
  }

  /** The matcher and the declarative reading of the pattern agree on every string. */
  lemma MatchesIffPattern(s: string)
    ensures Matches(s) <==> PatternMatches(s)
  {
    if Matches(s) {
      MatchesSound(s);
    }
    if PatternMatches(s) {
      var scheme, www, host :| scheme in SCHEMES && www in WWW_PREFIXES && host in HOSTS && MatchesWith(s, scheme, www, host);
      MatchesComplete(s, scheme, www, host);
    }
  }

  /** A bare host with nothing after its slash is rejected: `.+` needs a character. */
  lemma BareHostRejected(scheme: string, www: string, host: string)
    requires scheme in SCHEMES && www in WWW_PREFIXES && host in HOSTS
    ensures Validate(scheme + www + host + "/") == Some(INVALID_YOUTUBE_URL_MESSAGE)
  {
    var s := scheme + www + host + "/";
    assert StartsWith(s, s);
    ChoicesForced(s, scheme, www, host);
    assert s[|s|..] == [];
  }

  /**
   * A line break anywhere after the host's `/` makes the URL invalid: `.`
   * does not match it.
   */
  lemma LineBreakRejected(s: string, scheme: string, www: string, host: string, i: nat)
    requires scheme in SCHEMES && www in WWW_PREFIXES && host in HOSTS
    requires StartsWith(s, scheme + www + host + "/")
    requires |scheme + www + host + "/"| <= i < |s| && IsLineTerminator(s[i])
    ensures Validate(s) == Some(INVALID_YOUTUBE_URL_MESSAGE)
  {
    var k := |scheme + www + host + "/"|;
    assert !IsDotPlus(s[k..]) by {
      assert s[k..][i - k] == s[i];
    }
    ChoicesForced(s, scheme, www, host);
  }

  /**
   * The host must follow the scheme and `www.` at once: another subdomain,
   * such as the `m.` of the mobile site, is refused.
   */
  lemma OtherSubdomainRejected(sub: string, rest: string)
    requires |sub| > 0 && sub[0] != 'w' && sub[0] != 'y'
    ensures Validate(HTTPS + sub + rest) == Some(INVALID_YOUTUBE_URL_MESSAGE)
  {
    var s := HTTPS + sub + rest;
    assert s[..8] == HTTPS;
    var afterScheme := s[SchemeLength(s)..];
    assert afterScheme == sub + rest;
    assert afterScheme[0] == sub[0];
    assert !StartsWith(afterScheme, WWW) by { assert WWW[0] == 'w'; }
    assert !StartsWith(afterScheme, YOUTUBE_COM + "/") by { assert (YOUTUBE_COM + "/")[0] == 'y'; }
    assert !StartsWith(afterScheme, YOUTU_BE + "/") by { assert (YOUTU_BE + "/")[0] == 'y'; }
    assert !StartsWith(afterScheme, YOUTUBE + "/") by { assert (YOUTUBE + "/")[0] == 'y'; }
  }

  /** The ordinary watch and short-link forms are accepted. */
  lemma WatchAndShortLinksAccepted(id: string)
    requires IsDotPlus(id)
    ensures Validate(HTTPS + WWW + YOUTUBE_COM + "/watch?v=" + id).None?
    ensures Validate(HTTPS + YOUTU_BE + "/" + id).None?
  {
    var watch := HTTPS + WWW + YOUTUBE_COM + "/watch?v=" + id;
    var p := HTTPS + WWW + YOUTUBE_COM + "/";
    assert watch == p + ("watch?v=" + id);
    assert watch[..|p|] == p;
    assert IsDotPlus(watch[|p|..]) by {
      assert watch[|p|..] == "watch?v=" + id;
      forall i | 0 <= i < |watch[|p|..]| ensures !IsLineTerminator(watch[|p|..][i]) {
        if i >= 8 {
          assert watch[|p|..][i] == id[i - 8];
        }
      }
    }
    assert MatchesWith(watch, HTTPS, WWW, YOUTUBE_COM);
    var short := HTTPS + YOUTU_BE + "/" + id;
    var q := HTTPS + "" + YOUTU_BE + "/";
    assert short[..|q|] == q && short[|q|..] == id;
    assert MatchesWith(short, HTTPS, "", YOUTU_BE);
  }

  /**
   * The optional dot in `youtu\.?be` also lets a bare `youtube` host
   * through, without `.com`.
   */
  lemma BareYoutubeHostAccepted(path: string)
    requires IsDotPlus(path)
    ensures Validate(HTTP + YOUTUBE + "/" + path).None?
  {
    var s := HTTP + YOUTUBE + "/" + path;
    var q := HTTP + "" + YOUTUBE + "/";
    assert s[..|q|] == q && s[|q|..] == path;
    assert MatchesWith(s, HTTP, "", YOUTUBE);
  }
}
