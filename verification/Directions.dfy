/** Direction words, compared without case and surrounding blanks (ASCII). */
module Directions {

  function LowerChar(c: char): char {
    if 'A' <= c <= 'Z' then c + 32 as char else c
  }

  function Lower(s: string): (r: string)
    ensures |r| == |s|
  {
    seq(|s|, i requires 0 <= i < |s| => LowerChar(s[i]))
  }

  function UpperChar(c: char): char {
    if 'a' <= c <= 'z' then c - 32 as char else c
  }

  function Upper(s: string): (r: string)
    ensures |r| == |s|
  {
    seq(|s|, i requires 0 <= i < |s| => UpperChar(s[i]))
  }

  lemma LowerUpper(s: string)
    ensures Lower(Upper(s)) == Lower(s)
  {
  }

  predicate IsSmall(c: char) { 'a' <= c <= 'z' }

  predicate IsCapital(c: char) { 'A' <= c <= 'Z' }

  /** Either way only the case of letters changes: of a letter to its other form, of nothing else. */
  lemma OneCase(c: char)
    ensures !IsCapital(LowerChar(c)) && !IsSmall(UpperChar(c))
    ensures !IsCapital(c) ==> LowerChar(c) == c
    ensures !IsSmall(c) ==> UpperChar(c) == c
    ensures IsCapital(c) ==> UpperChar(LowerChar(c)) == c
    ensures IsSmall(c) ==> LowerChar(UpperChar(c)) == c
  {
  }

  predicate IsBlank(c: char) { c == ' ' || c == '\t' || c == '\n' || c == '\r' }

  function Strip(s: string): string {
    if s != "" && IsBlank(s[0]) then Strip(s[1..])
    else if s != "" && IsBlank(s[|s| - 1]) then Strip(s[..|s| - 1])
    else s
  }

  predicate AllBlank(s: string) { forall c :: c in s ==> IsBlank(c) }

  predicate Bare(s: string) { s == "" || (!IsBlank(s[0]) && !IsBlank(s[|s| - 1])) }

  /** Stripping finds the word between the blanks, whatever the blanks are. */
  lemma {:induction false} StripFindsTheWord(before: string, word: string, after: string)
    requires AllBlank(before) && AllBlank(after) && Bare(word)
    ensures Strip(before + word + after) == word
    decreases |before| + |after|
  {
    var s := before + word + after;
    if before != "" {
      assert s[0] == before[0] && s[1..] == before[1..] + word + after;
      StripFindsTheWord(before[1..], word, after);
    } else if after != "" {
      var n := |after| - 1;
      assert s[|s| - 1] == after[n] && s[..|s| - 1] == before + word + after[..n];
      StripFindsTheWord(before, word, after[..n]);
      if word == "" {
        assert s == after && IsBlank(s[0]);
        StripFindsTheWord("", "", after[1..]);
        assert s[1..] == "" + "" + after[1..];
      } else {
        assert s[0] == word[0];
      }
    } else {
      assert s == word;
    }
  }

  predicate IsBuyWord(word: string) { word == "up" || word == "buy" || word == "long" }

  /** A word that reads as a buy without stripping has no blanks around it. */
  lemma BuyWordIsBare(word: string)
    requires IsBuyWord(Lower(word))
    ensures Strip(word) == word
  {
    var low, last := Lower(word), |word| - 1;
    assert low[0] == LowerChar(word[0]) && low[last] == LowerChar(word[last]);
  }
}
