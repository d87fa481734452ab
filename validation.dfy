/**
 * The two input validators of the API: the syntax of a short key and the
 * acceptance of a redirect target URL.
 */
module Validation {
  import opened Options

  /** The pattern a short must match, as the error message quotes it. */
  const ShortPattern := "^[a-zA-Z0-9\\-_]+$"
  const InvalidShortMessage := "invalid short does not match " + ShortPattern
  const InvalidUrlMessage := "invalid redirect url"

  /** The character class `[a-zA-Z0-9\-_]`. */
  predicate IsShortChar(c: char)
  {
    'a' <= c <= 'z' || 'A' <= c <= 'Z' || '0' <= c <= '9' || c == '-' || c == '_'
  }

  /** Anchored match of one or more characters of the class: one character, then the rest if any. */
  predicate MatchesShortPattern(s: string)
  {
    |s| > 0 && IsShortChar(s[0]) && (|s| == 1 || MatchesShortPattern(s[1..]))
  }

  /** The pattern accepts exactly the non-empty strings made only of class characters. */
  lemma {:induction false} ShortPatternIff(s: string)
    ensures MatchesShortPattern(s) <==> |s| > 0 && forall i :: 0 <= i < |s| ==> IsShortChar(s[i])
  {
    if |s| > 1 {
      ShortPatternIff(s[1..]);
      assert forall i :: 1 <= i < |s| ==> s[i] == s[1..][i - 1];
    }
  }

  /** A short is invalid exactly when it is empty or has a character outside the class. */
  function InvalidShort(input: string): (r: bool)
    ensures r <==> input == [] || exists i :: 0 <= i < |input| && !IsShortChar(input[i])
  {
    ShortPatternIff(input);
    !MatchesShortPattern(input)
  }

  /** The malformed shorts the service's tests send are rejected. */
  lemma RejectedShortExamples()
    ensures InvalidShort("käse") && InvalidShort("some.thing")
    ensures InvalidShort("asdf 77 / 324") && InvalidShort("45+3/223?")
  {
    assert !IsShortChar("käse"[1]);
    assert !IsShortChar("some.thing"[4]);
    assert !IsShortChar("asdf 77 / 324"[4]);
    assert !IsShortChar("45+3/223?"[2]);
  }

  /** The well-formed shorts the service's tests store are accepted. */
  lemma AcceptedShortExamples()
    ensures !InvalidShort("ex") && !InvalidShort("excom")
    ensures !InvalidShort("newshort") && !InvalidShort("newurl")
  {
    assert !InvalidShort("ex");
    assert !InvalidShort("excom");
    assert !InvalidShort("newshort");
  }

  /** The well-formed shorts the service's tests look up without storing them are accepted. */
  lemma AcceptedPathShortExamples()
    ensures !InvalidShort("something") && !InvalidShort("somewhere")
  {
    assert !InvalidShort("something");
  }

  /** The parts of a parsed request URI the validator looks at. */
  datatype Url = Url(scheme: string, host: string)

  /** The request-URI parser: a parse error, or the parsed scheme and host. */
  type UrlParser = string -> Option<Url>

  /**
   * A redirect URL is invalid when it does not parse or has no scheme or no
   * host; it is accepted exactly when it parses to a URL with both.
   */
  predicate InvalidUrl(input: string, parse: UrlParser): (r: bool)
    ensures !r <==> parse(input).Some? && parse(input).value.scheme != "" && parse(input).value.host != ""
    ensures parse(input).None? ==> r
  {
    match parse(input)
    case None => true
    case Some(u) => u.scheme == "" || u.host == ""
  }
}
