/**
  The two functions of Go's `strings` package the auth gate uses, on strings
  seen as sequences of characters. The only prefix ever tested is the ASCII
  literal "Bearer ", for which a byte prefix and a character prefix agree.
 */
module GoStrings {

  /** `strings.HasPrefix`: an exact, character-by-character (so case-sensitive) match. */
  function HasPrefix(s: string, prefix: string): (b: bool)
    ensures b <==> |prefix| <= |s| && forall i | 0 <= i < |prefix| :: s[i] == prefix[i]
    ensures b ==> s == prefix + s[|prefix|..]
  {
    |prefix| <= |s| && s[..|prefix|] == prefix
  }

  /** `strings.TrimPrefix`: removes one leading `prefix` if there is one, else returns `s`. */
  function TrimPrefix(s: string, prefix: string): (r: string)
    ensures HasPrefix(s, prefix) ==> prefix + r == s && |r| == |s| - |prefix|
    ensures !HasPrefix(s, prefix) ==> r == s
  {
    if HasPrefix(s, prefix) then s[|prefix|..] else s
  }

  /** Trimming undoes prepending: the round trip of `prefix + rest`. */
  lemma TrimPrefixOfConcat(prefix: string, rest: string)
    ensures HasPrefix(prefix + rest, prefix)
    ensures TrimPrefix(prefix + rest, prefix) == rest
  {
  }
}
