/**
 * The part of Go's url.ParseRequestURI that decides whether a target URL is
 * accepted and what its scheme is: the control-character check, the empty
 * and "*" special cases, getScheme, scheme lower-casing, and the rule that a
 * scheme-less request URI must be an absolute path.
 */
module RequestUri {
  import opened Wrappers
  import opened Errors
  import opened Text

  /** An ASCII control character (below 0x20, or DEL). */
  predicate IsCtl(c: char)
  {
    c < ' ' || c == '\U{7F}'
  }

  predicate HasCtl(s: string)
  {
    exists i :: 0 <= i < |s| && IsCtl(s[i])
  }

  predicate IsSchemeTail(c: char)
  {
    IsDigit(c) || c == '+' || c == '-' || c == '.'
  }

  /**
   * getScheme: a scheme is a letter followed by letters, digits, '+', '-' or
   * '.', and ends at the first ':'.  A leading ':' is an error; anything else
   * means there is no scheme and the whole text is the rest.
   */
  function GetScheme(raw: string): Result<(string, string), Error>
  {
    GetSchemeFrom(raw, 0)
  }

  function GetSchemeFrom(raw: string, i: nat): Result<(string, string), Error>
    requires i <= |raw|
    decreases |raw| - i
  {
    if i == |raw| then Ok(("", raw))
    else
      var c := raw[i];
      if IsAsciiLetter(c) then GetSchemeFrom(raw, i + 1)
      else if IsSchemeTail(c) then (if i == 0 then Ok(("", raw)) else GetSchemeFrom(raw, i + 1))
      else if c == ':' then (if i == 0 then Err(Message("missing protocol scheme")) else Ok((raw[..i], raw[i + 1..])))
      else Ok(("", raw))
  }

  datatype Uri = Uri(scheme: string, rest: string)

  /** The path and query part after the scheme, without the query. */
  function CutQuery(rest: string): string
  {
    if exists k :: 0 <= k < |rest| && rest[k] == '?' then CutQueryFrom(rest, 0) else rest
  }

  function CutQueryFrom(rest: string, i: nat): string
    requires i <= |rest|
    decreases |rest| - i
  {
    if i == |rest| then rest else if rest[i] == '?' then rest[..i] else CutQueryFrom(rest, i + 1)
  }

  /** url.ParseRequestURI, up to authority and path-escape validation. */
  function ParseRequestUri(raw: string): Result<Uri, Error>
  {
    if HasCtl(raw) then Err(Message("net/url: invalid control character in URL"))
    else if raw == "" then Err(Message("empty url"))
    else if raw == "*" then Ok(Uri("", "*"))
    else match GetScheme(raw)
      case Err(e) => Err(e)
      case Ok((scheme, rest)) =>
        var lower := ToLower(scheme);
        var path := CutQuery(rest);
        if !HasPrefix(path, "/") && lower == "" then Err(Message("invalid URI for request"))
        else Ok(Uri(lower, rest))
  }

  /** The services' target check: the URI parses and its scheme is http or https. */
  predicate IsHttpTarget(raw: string)
  {
    var u := ParseRequestUri(raw);
    u.Ok? && (u.value.scheme == "http" || u.value.scheme == "https")
  }

  /** `s` starts with `word` followed by ':', comparing letters case-insensitively. */
  predicate StartsWithSchemeFold(s: string, word: string)
  {
    |s| > |word| && ToLower(s[..|word|]) == word && s[|word|] == ':'
  }

  lemma {:induction false} SchemeScan(raw: string, i: nat, n: nat)
    requires i <= n < |raw|
    requires forall k :: 0 <= k < n ==> IsAsciiLetter(raw[k])
    requires raw[n] == ':' && n > 0
    ensures GetSchemeFrom(raw, i) == Ok((raw[..n], raw[n + 1..]))
    decreases n - i
  {
    if i < n {
      SchemeScan(raw, i + 1, n);
    }
  }

  lemma {:induction false} SchemeLetters(raw: string, i: nat)
    requires i <= |raw|
    requires forall k :: 0 <= k < i ==> IsAsciiLetter(raw[k]) || (k > 0 && IsSchemeTail(raw[k]))
    requires GetSchemeFrom(raw, i).Ok? && GetSchemeFrom(raw, i).value.0 != ""
    ensures var (scheme, rest) := GetSchemeFrom(raw, i).value;
            |scheme| < |raw| && raw[..|scheme|] == scheme && raw[|scheme|] == ':'
            && rest == raw[|scheme| + 1..]
            && forall k :: 0 <= k < |scheme| ==> IsAsciiLetter(scheme[k]) || (k > 0 && IsSchemeTail(scheme[k]))
    decreases |raw| - i
  {
    var c := raw[i];
    if IsAsciiLetter(c) || (IsSchemeTail(c) && i > 0) {
      SchemeLetters(raw, i + 1);
    }
  }

  lemma LowerIsWord(s: string, word: string)
    requires word == "http" || word == "https"
    requires ToLower(s) == word
    ensures forall k :: 0 <= k < |s| ==> IsAsciiLetter(s[k])
  {
    forall k | 0 <= k < |s| ensures IsAsciiLetter(s[k]) {
      assert LowerChar(s[k]) == word[k];
    }
  }

  /**
   * A target passes the http(s) check exactly when it has no control
   * character and starts with "http:" or "https:" in any letter case.
   */
  lemma HttpTargetShape(raw: string)
    ensures IsHttpTarget(raw) <==>
              !HasCtl(raw) && (StartsWithSchemeFold(raw, "http") || StartsWithSchemeFold(raw, "https"))
  {
    if !HasCtl(raw) && (StartsWithSchemeFold(raw, "http") || StartsWithSchemeFold(raw, "https")) {
      var n := if StartsWithSchemeFold(raw, "http") then 4 else 5;
      LowerIsWord(raw[..n], if n == 4 then "http" else "https");
      SchemeScan(raw, 0, n);
      assert raw != "" && raw != "*";
    }
    if IsHttpTarget(raw) {
      assert raw != "" && raw != "*";
      var (scheme, rest) := GetScheme(raw).value;
      assert ToLower(scheme) == "http" || ToLower(scheme) == "https";
      SchemeLetters(raw, 0);
      assert raw[..|scheme|] == scheme;
    }
  }
}
