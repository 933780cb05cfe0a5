/** The string conventions of the game's messages: the session-start literal,
    the suffix tests that pass the turn, and the prefix test that reports a hit. */
module Messages {

  /** The literal the server sends to the first client that connects. */
  const SessionStart := "You are Player 1 ... waiting for Player 2"

  /** ASCII upper-casing of one character; every other character is left alone. */
  function UpperAscii(c: char): char {
    if 'a' <= c <= 'z' then (c as int - 32) as char else c
  }

  /** `uppercased()`, restricted to the ASCII letters. */
  function Uppercased(s: string): (r: string)
    ensures |r| == |s|
    ensures forall i :: 0 <= i < |s| ==> r[i] == UpperAscii(s[i])
  {
    if s == [] then [] else [UpperAscii(s[0])] + Uppercased(s[1..])
  }

  /** Swift's `starts(with:)`. */
  predicate StartsWith(s: string, prefix: string) {
    |prefix| <= |s| && s[..|prefix|] == prefix
  }

  /** A string starts with `prefix` exactly when it is `prefix` followed by something. */
  lemma StartsWithAppend(s: string, prefix: string)
    ensures StartsWith(s, prefix) <==> exists rest :: s == prefix + rest
  {
    if StartsWith(s, prefix) {
      assert s == prefix + s[|prefix|..];
    }
  }

  /** Swift's `suffix(n)`: the last `n` characters, or all of `s` when it is shorter. */
  function Suffix(s: string, n: nat): (r: string)
    ensures |r| == if n < |s| then n else |s|
    ensures EndsWith(s, r)
  {
    if n >= |s| then s else s[|s| - n..]
  }

  /** Reference definition of "`s` ends in `t`", character by character. */
  predicate EndsWith(s: string, t: string) {
    |t| <= |s| && forall i :: 0 <= i < |t| ==> s[|s| - |t| + i] == t[i]
  }

  /** Comparing `suffix(|t|)` with `t`, as the turn tests do, is exactly a suffix test. */
  lemma SuffixComparison(s: string, t: string)
    ensures Suffix(s, |t|) == t <==> EndsWith(s, t)
  {
  }

  /** The hit test of `evaluateMessage`: the upper-cased message starts with "F". */
  function IsHit(message: string): (found: bool)
    ensures found <==> |message| > 0 && (message[0] == 'F' || message[0] == 'f')
  {
    StartsWith(Uppercased(message), "F")
  }

  /** Responses that start with 'F' in either case are hits, "Failure" among them. */
  lemma HitExamples()
    ensures IsHit("Found treasure!") && IsHit("found") && IsHit("Failure")
    ensures !IsHit("Nothing") && !IsHit("") && !IsHit(SessionStart)
  {
  }
}
