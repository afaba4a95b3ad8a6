/** Case-insensitive comparison of a chat message with the secret word
    (backend/server.js, line 128). `toLowerCase` is modelled on ASCII letters
    only. */
module Text {
  import opened Wrappers

  predicate IsUpper(c: char) {
    'A' <= c <= 'Z'
  }

  /** ASCII lowercasing of one character: only capitals change, and the result
      is never a capital. */
  function LowerChar(c: char): (r: char)
    ensures !IsUpper(r)
    ensures IsUpper(c) || r == c
    ensures IsUpper(c) ==> r as int == c as int + 32
  {
    if IsUpper(c) then (c as int + 32) as char else c
  }

  /** `s.toLowerCase()` on ASCII text: the same length, lowered position by
      position. */
  function LowerStr(s: string): (r: string)
    ensures |r| == |s|
    ensures forall i :: 0 <= i < |s| ==> r[i] == LowerChar(s[i])
  {
    if s == [] then [] else [LowerChar(s[0])] + LowerStr(s[1..])
  }

  /** The test of line 128: `word` is set and non-empty (JavaScript truthiness),
      the message is non-empty, and both are equal once lowercased. */
  predicate IsRightGuess(word: Option<string>, msg: string): (r: bool)
    ensures r ==> word.Some? && 0 < |msg| == |word.value|
    ensures word.Some? && msg != "" && msg == word.value ==> r
  {
    word.Some? && word.value != "" && msg != "" && LowerStr(msg) == LowerStr(word.value)
  }

  /** Lowercasing twice is lowercasing once. */
  lemma LowerStrIdempotent(s: string)
    ensures LowerStr(LowerStr(s)) == LowerStr(s)
  {
  }

  /** A right guess is exactly a non-empty message of the word's length whose
      characters agree with the word's, position by position, up to case. */
  lemma RightGuessIff(word: Option<string>, msg: string)
    ensures IsRightGuess(word, msg) <==>
      (word.Some? && 0 < |msg| == |word.value| &&
       forall i :: 0 <= i < |msg| ==> LowerChar(msg[i]) == LowerChar(word.value[i]))
  {
  }

  /** Whether a message is a right guess depends on the message only up to
      case: lowercasing the message never changes the verdict. */
  lemma RightGuessIgnoresCase(word: Option<string>, msg: string)
    ensures IsRightGuess(word, LowerStr(msg)) == IsRightGuess(word, msg)
  {
  }
}
