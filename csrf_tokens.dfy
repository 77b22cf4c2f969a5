// generate_token of the CSRF demo server. The random engine is abstracted
// to the sequence of indices its uniform distribution draws, one per
// character, each in 0 .. sizeof(charset) - 2.

module CsrfTokens {

  const Digits: string := "0123456789"
  const UpperCase: string := "ABCDEFGHIJKLMNOPQRSTUVWXYZ"
  const LowerCase: string := "abcdefghijklmnopqrstuvwxyz"

  /** The charset literal of generate_token, written as its three runs. */
  const Charset: string := Digits + UpperCase + LowerCase

  /** `sizeof(charset)`: the C array also holds the terminating NUL. */
  const CharsetSizeof: nat := |Charset| + 1

  /** The largest index the distribution draws. */
  const MaxDraw: nat := CharsetSizeof - 2

  /** Default length of generate_token, used for session ids. */
  const SessionIdLength: nat := 32
  /** Length of the CSRF tokens created at login. */
  const CsrfTokenLength: nat := 16

  predicate IsAlphanumeric(c: char) {
    '0' <= c <= '9' || 'A' <= c <= 'Z' || 'a' <= c <= 'z'
  }

  /** Draws the random engine may produce for the distribution `dis(0, sizeof(charset) - 2)`. */
  predicate ValidDraws(draws: seq<int>) {
    forall k :: 0 <= k < |draws| ==> 0 <= draws[k] <= MaxDraw
  }

  /** A string generate_token can return for `length` characters. */
  ghost predicate IsToken(s: string, length: nat) {
    |s| == length && forall k :: 0 <= k < |s| ==> IsAlphanumeric(s[k])
  }

  /** The character the charset holds at index `k`, by arithmetic on character codes. */
  function CharsetAt(k: int): char
    requires 0 <= k < 62
  {
    if k < 10 then (k + '0' as int) as char
    else if k < 36 then (k - 10 + 'A' as int) as char
    else (k - 36 + 'a' as int) as char
  }

  lemma CharsetByCode()
    ensures |Charset| == 62
    ensures forall k :: 0 <= k < 62 ==> Charset[k] == CharsetAt(k)
  {
  }

  /**
   * The largest draw is the last charset character (the NUL is never
   * drawn), and every character that can be drawn is a letter or a digit.
   */
  lemma DrawsPickAlphanumerics()
    ensures |Charset| == 62 && MaxDraw == |Charset| - 1
    ensures forall k :: 0 <= k < |Charset| ==> IsAlphanumeric(Charset[k])
  {
    CharsetByCode();
  }

  /** The charset lists all 62 ASCII letters and digits, each once, in increasing order. */
  lemma CharsetCoversAlphanumerics()
    ensures forall k :: 0 < k < |Charset| ==> Charset[k - 1] < Charset[k]
    ensures forall c :: IsAlphanumeric(c) ==> c in Charset
  {
    CharsetByCode();
    forall c | IsAlphanumeric(c)
      ensures c in Charset
    {
      var k := if c <= '9' then c as int - '0' as int
               else if c <= 'Z' then c as int - 'A' as int + 10
               else c as int - 'a' as int + 36;
      assert Charset[k] == c;
    }
  }

  /**
   * Appends one charset character per draw; a negative length gives the
   * empty string, as the `for` loop then runs no iteration.
   */
  method GenerateToken(length: int, draws: seq<int>) returns (token: string)
    requires length <= |draws| && ValidDraws(draws)
    ensures |token| == if length < 0 then 0 else length
    ensures forall k :: 0 <= k < |token| ==> token[k] == Charset[draws[k]]
    ensures length >= 0 ==> IsToken(token, length)
  {
    DrawsPickAlphanumerics();
    token := "";
    var i := 0;
    while i < length
      invariant 0 <= i <= if length < 0 then 0 else length
      invariant |token| == i
      invariant forall k :: 0 <= k < i ==> token[k] == Charset[draws[k]]
    {
      token := token + [Charset[draws[i]]];
      i := i + 1;
    }
  }
}
