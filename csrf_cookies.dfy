// Extracting the session id from a request's Cookie header in the CSRF demo
// server. The header map lookup is abstracted to an optional header value;
// `std::string::find` and `substr` are modelled on sequences of characters.

module CsrfCookies {
  import opened Wrappers

  /** `std::string::npos`, the largest `size_t` on a 64-bit platform. */
  const NPOS: int := 0xFFFF_FFFF_FFFF_FFFF

  const SessionPrefix: string := "SESSION_ID="

  /** `pattern` occurs in `s` starting at index `k`. */
  predicate OccursAt(s: string, pattern: string, k: nat) {
    k + |pattern| <= |s| && s[k..k + |pattern|] == pattern
  }

  ghost predicate Contains(s: string, pattern: string) {
    exists k: nat :: OccursAt(s, pattern, k)
  }

  /** `s.find(pattern, from)`: the first occurrence at or after `from`, None for npos. */
  function FindFrom(s: string, pattern: string, from: nat): (pos: Option<nat>)
    ensures pos.Some? ==> from <= pos.value && OccursAt(s, pattern, pos.value)
    ensures forall k: nat :: from <= k && (pos.None? || k < pos.value) ==> !OccursAt(s, pattern, k)
    decreases |s| - from
  {
    if from + |pattern| > |s| then None
    else if s[from..from + |pattern|] == pattern then Some(from)
    else FindFrom(s, pattern, from + 1)
  }

  /** `s.substr(pos, count)`: a count reaching past the end is cut at the end. */
  function Substr(s: string, pos: nat, count: nat): string
    requires pos <= |s|
  {
    if count < |s| - pos then s[pos..pos + count] else s[pos..]
  }

  /** Reference definition: the characters of `s` before its first ';'. */
  function UpToSemicolon(s: string): string {
    if s == [] || s[0] == ';' then [] else [s[0]] + UpToSemicolon(s[1..])
  }

  /**
   * get_session_id: the text after the first "SESSION_ID=" anywhere in the
   * header, up to the next ';' or the end; "" without a header or a prefix.
   * A `std::string` never reaches npos characters.
   */
  function GetSessionId(cookieHeader: Option<string>): (sessionId: string)
    requires cookieHeader.Some? ==> |cookieHeader.value| < NPOS
    ensures ';' !in sessionId
    ensures cookieHeader.None? ==> sessionId == ""
    ensures cookieHeader.Some? && !Contains(cookieHeader.value, SessionPrefix) ==> sessionId == ""
  {
    match cookieHeader
    case None => ""
    case Some(cookie) =>
      match FindFrom(cookie, SessionPrefix, 0)
      case None => ""
      case Some(pos) =>
        var end := match FindFrom(cookie, ";", pos) case None => NPOS case Some(e) => e;
        PrefixHasNoSemicolon(cookie, pos, end);
        Substr(cookie, pos + |SessionPrefix|, end - pos - |SessionPrefix|)
  }

  /**
   * Where the prefix was found, the next ';' lies past the prefix, and the
   * text in between holds no ';'.
   */
  lemma PrefixHasNoSemicolon(cookie: string, pos: nat, end: int)
    requires |cookie| < NPOS && OccursAt(cookie, SessionPrefix, pos)
    requires end == match FindFrom(cookie, ";", pos) case None => NPOS case Some(e) => e
    ensures pos + |SessionPrefix| <= end
    ensures forall k :: pos + |SessionPrefix| <= k < |cookie| && k < end ==> cookie[k] != ';'
  {
    forall k | pos <= k < pos + |SessionPrefix|
      ensures cookie[k] != ';'
    {
      assert cookie[k] == SessionPrefix[k - pos];
    }
    if end < NPOS {
      assert OccursAt(cookie, ";", end);
      assert cookie[end..end + 1] == [cookie[end]];
    }
    forall k | pos <= k < |cookie| && k < end
      ensures cookie[k] != ';'
    {
      assert !OccursAt(cookie, ";", k);
      assert cookie[k..k + 1] == [cookie[k]];
    }
  }

  /** UpToSemicolon cuts `s` at the first ';' it holds. */
  lemma {:induction false} UpToSemicolonIsPrefix(s: string, j: nat)
    requires j <= |s|
    requires j < |s| ==> s[j] == ';'
    requires forall k :: 0 <= k < j ==> s[k] != ';'
    ensures UpToSemicolon(s) == s[..j]
  {
    if j > 0 {
      UpToSemicolonIsPrefix(s[1..], j - 1);
    }
  }

  /**
   * With the first "SESSION_ID=" at index i, the session id is the text that
   * follows it up to the first ';'.
   */
  lemma SessionIdAfterFirstPrefix(cookie: string, i: nat)
    requires |cookie| < NPOS
    requires OccursAt(cookie, SessionPrefix, i)
    requires forall k: nat :: k < i ==> !OccursAt(cookie, SessionPrefix, k)
    ensures GetSessionId(Some(cookie)) == UpToSemicolon(cookie[i + |SessionPrefix|..])
  {
    assert FindFrom(cookie, SessionPrefix, 0) == Some(i);
    var start := i + |SessionPrefix|;
    var end := match FindFrom(cookie, ";", i) case None => NPOS case Some(e) => e;
    PrefixHasNoSemicolon(cookie, i, end);
    var rest := cookie[start..];
    var j := if end < |cookie| then end - start else |rest|;
    if end < |cookie| {
      assert OccursAt(cookie, ";", end);
      assert cookie[end..end + 1] == [cookie[end]];
    }
    UpToSemicolonIsPrefix(rest, j);
  }

  /** A raw substring search: "XSESSION_ID=v" still yields "v". */
  lemma SuffixedCookieNameMatches()
    ensures GetSessionId(Some("XSESSION_ID=v")) == "v"
  {
    var cookie := "XSESSION_ID=v";
    assert cookie[1..12] == SessionPrefix;
    assert cookie[0] != SessionPrefix[0];
    SessionIdAfterFirstPrefix(cookie, 1);
    assert cookie[12..] == "v";
  }

  /**
   * A header that starts with the session cookie, followed by other
   * cookies after a ';', yields exactly the session cookie's value.
   */
  lemma SessionIdBeforeOtherCookies(value: string, others: string)
    requires ';' !in value
    requires |others| > 0 && others[0] == ';'
    requires |SessionPrefix + value + others| < NPOS
    ensures GetSessionId(Some(SessionPrefix + value + others)) == value
  {
    var cookie := SessionPrefix + value + others;
    assert cookie[0..|SessionPrefix|] == SessionPrefix;
    SessionIdAfterFirstPrefix(cookie, 0);
    var rest := cookie[|SessionPrefix|..];
    assert rest == value + others;
    assert rest[|value|] == others[0];
    UpToSemicolonIsPrefix(rest, |value|);
    assert rest[..|value|] == value;
  }
}
