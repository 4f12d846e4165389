/**
 * `getToken`: reads the bot credential from the environment variable
 * TGTOKEN and accepts it only when it matches the regular expression
 * `^[0-9]+:.*$` (Go RE2 syntax: `.` does not match a newline, `$` is the
 * end of the text).
 */
module BotToken {
  import opened Wrappers
  import opened Text

  /** Why `getToken` returns no token. */
  datatype TokenError = Unset | Malformed(token: string)

  /** `getToken`'s two results: the token ("" on error) and the error. */
  datatype TokenLookup = TokenLookup(token: string, err: Option<TokenError>)

  /** The regular expression read literally: one or more digits, ':', then any non-newline characters. */
  ghost predicate MatchesPattern(s: string) {
    exists k :: 1 <= k < |s| && AllDigits(s[..k]) && s[k] == ':' && '\n' !in s[k + 1..]
  }

  /** The length of the run of digits that starts `s`. */
  function DigitRun(s: string): (k: nat)
    ensures k <= |s|
    ensures forall i :: 0 <= i < k ==> IsDigit(s[i])
    ensures k < |s| ==> !IsDigit(s[k])
  {
    if s != [] && IsDigit(s[0]) then 1 + DigitRun(s[1..]) else 0
  }

  /** The match decided in one scan: the digit run is non-empty and stops at ':', no newline follows. */
  predicate TokenFormatOk(s: string) {
    var k := DigitRun(s);
    1 <= k < |s| && s[k] == ':' && '\n' !in s[k + 1..]
  }

  /** The scan accepts exactly the strings the regular expression matches. */
  lemma TokenFormatOkIsPattern(s: string)
    ensures TokenFormatOk(s) <==> MatchesPattern(s)
  {
    var k := DigitRun(s);
    if TokenFormatOk(s) {
      assert AllDigits(s[..k]);
    }
    if MatchesPattern(s) {
      var j :| 1 <= j < |s| && AllDigits(s[..j]) && s[j] == ':' && '\n' !in s[j + 1..];
      assert !IsDigit(s[j]);
    }
  }

  /** `getToken` with the result of `os.LookupEnv("TGTOKEN")` as its input. */
  function GetToken(env: Option<string>): (r: TokenLookup)
    ensures r.err == None <==> env.Some? && MatchesPattern(env.value)
    ensures r.err == None ==> r.token == env.value
    ensures r.err != None ==> r.token == ""
    ensures env == None ==> r.err == Some(Unset)
    ensures env.Some? && r.err != None ==> r.err == Some(Malformed(env.value))
  {
    match env
    case None => TokenLookup("", Some(Unset))
    case Some(token) =>
      TokenFormatOkIsPattern(token);
      if TokenFormatOk(token) then TokenLookup(token, None)
      else TokenLookup("", Some(Malformed(token)))
  }

  /** Digits, a colon and a line without newline: returned unchanged, without error. */
  lemma AcceptsDigitsColonLine(digits: string, rest: string)
    requires digits != [] && AllDigits(digits) && '\n' !in rest
    ensures GetToken(Some(digits + ":" + rest)) == TokenLookup(digits + ":" + rest, None)
  {
    var t := digits + ":" + rest;
    var k := |digits|;
    assert t[..k] == digits && t[k] == ':' && t[k + 1..] == rest;
    assert MatchesPattern(t);
  }

  /** A string that does not start with a digit: "" and an error. */
  lemma RejectsNonDigitStart(t: string)
    requires t != [] && !IsDigit(t[0])
    ensures GetToken(Some(t)) == TokenLookup("", Some(Malformed(t)))
  {
    assert DigitRun(t) == 0;
    TokenFormatOkIsPattern(t);
  }

  /** A token of the usual shape, and the same token with a letter in front. */
  const SampleDigits: string := "123456"
  const SampleRest: string := "ABC-DEF1234ghIkl-zyx57W2v1u123ew11"
  const SampleToken: string := SampleDigits + ":" + SampleRest
  const LetterFirstToken: string := "a" + SampleToken

  /** The well-formed sample token is accepted as it is. */
  lemma AcceptsWellFormedToken()
    ensures GetToken(Some(SampleToken)) == TokenLookup(SampleToken, None)
  {
    assert AllDigits(SampleDigits);
    assert '\n' !in SampleRest;
    AcceptsDigitsColonLine(SampleDigits, SampleRest);
  }

  /** The sample token with a letter in front yields "" and an error. */
  lemma RejectsLetterPrefix()
    ensures GetToken(Some(LetterFirstToken)) == TokenLookup("", Some(Malformed(LetterFirstToken)))
  {
    RejectsNonDigitStart(LetterFirstToken);
  }

  /** A newline after the colon is not matched by `.`, so the token is refused. */
  lemma RejectsNewlineAfterColon()
    ensures GetToken(Some("1:a\nb")).err == Some(Malformed("1:a\nb"))
  {
    var t := "1:a\nb";
    assert t[2..][1] == '\n';
    TokenFormatOkIsPattern(t);
  }
}
