/**
 * The two functions of Go's `strings` package that the handler uses to recognise
 * and strip the bearer scheme. A Go string is modelled as a Dafny string; the only
 * operations applied to it are equality and a prefix test against an ASCII literal,
 * on which a byte string and its character sequence agree.
 */
module GoStrings {

  /** strings.HasPrefix: s is at least as long as prefix and begins with it. */
  function HasPrefix(s: string, prefix: string): (b: bool)
    ensures b <==> |prefix| <= |s| && forall i :: 0 <= i < |prefix| ==> s[i] == prefix[i]
  {
    |s| >= |prefix| && s[..|prefix|] == prefix
  }

  /** A prefix test succeeds exactly when s is prefix followed by something. */
  lemma HasPrefixIsConcatenation(s: string, prefix: string)
    ensures HasPrefix(s, prefix) <==> exists rest :: s == prefix + rest
  {
    if HasPrefix(s, prefix) {
      var rest := s[|prefix|..];
      assert s == prefix + rest;
    }
  }

  /**
   * strings.TrimPrefix: s with one leading prefix removed when it starts with it,
   * otherwise s unchanged.
   */
  function TrimPrefix(s: string, prefix: string): (t: string)
    ensures HasPrefix(s, prefix) ==> prefix + t == s
    ensures !HasPrefix(s, prefix) ==> t == s
    ensures |t| <= |s|
  {
    if HasPrefix(s, prefix) then s[|prefix|..] else s
  }

  /** Removing a prefix from prefix + rest gives back exactly rest. */
  lemma TrimPrefixOfConcatenation(prefix: string, rest: string)
    ensures HasPrefix(prefix + rest, prefix)
    ensures TrimPrefix(prefix + rest, prefix) == rest
  {
  }
}
