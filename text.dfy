/** Character classes, ASCII case mapping and substring search, as the client's regular expressions use them. */
module Text {
  import opened Wrappers

  predicate IsDigit(c: char) { '0' <= c <= '9' }
  predicate IsUpper(c: char) { 'A' <= c <= 'Z' }
  predicate IsLower(c: char) { 'a' <= c <= 'z' }
  predicate IsLetter(c: char) { IsUpper(c) || IsLower(c) }
  predicate IsAlnum(c: char) { IsDigit(c) || IsLetter(c) }

  /**
   * JavaScript's `\s`: ASCII white space, the no-break and other Unicode
   * space separators, the line and paragraph separators and the byte-order mark.
   */
  predicate IsSpace(c: char) {
    c == ' ' || c == '\t' || c == '\n' || c == '\U{000B}' || c == '\U{000C}' || c == '\r'
    || c == '\U{00A0}' || c == '\U{1680}' || ('\U{2000}' <= c <= '\U{200A}')
    || c == '\U{2028}' || c == '\U{2029}' || c == '\U{202F}' || c == '\U{205F}'
    || c == '\U{3000}' || c == '\U{FEFF}'
  }

  function LowerChar(c: char): char {
    if IsUpper(c) then (c as int + 32) as char else c
  }

  function UpperChar(c: char): char {
    if IsLower(c) then (c as int - 32) as char else c
  }

  /** The first `n` characters: what an input with `maxLength={n}` passes on. */
  function Take(s: string, n: nat): (r: string)
    ensures |r| <= n && |r| <= |s| && r == s[..|r|]
    ensures |s| <= n ==> r == s
  {
    if |s| <= n then s else s[..n]
  }

  /** ASCII lower-casing: the folding a case-insensitive regular expression applies to ASCII letters. */
  function Lower(s: string): (r: string)
    ensures |r| == |s| && forall i :: 0 <= i < |s| ==> r[i] == LowerChar(s[i])
  {
    seq(|s|, i requires 0 <= i < |s| => LowerChar(s[i]))
  }

  /** `toUpperCase()` restricted to ASCII letters. */
  function Upper(s: string): (r: string)
    ensures |r| == |s| && forall i :: 0 <= i < |s| ==> r[i] == UpperChar(s[i])
  {
    seq(|s|, i requires 0 <= i < |s| => UpperChar(s[i]))
  }

  /** Text without ASCII capitals is its own lower-case form. */
  lemma LowerWithoutCapitals(s: string)
    requires forall i :: 0 <= i < |s| ==> !IsUpper(s[i])
    ensures Lower(s) == s
  {
  }

  lemma LowerOfUpper(s: string)
    ensures Lower(Upper(s)) == Lower(s)
  {
  }

  /** `word` occurs in `text` starting at index `i`. */
  predicate OccursAt(text: string, word: string, i: nat) {
    i + |word| <= |text| && text[i..i + |word|] == word
  }

  /** Some word of `words` occurs at index `i`: one step of an alternation `/w1|w2|.../`. */
  predicate AnyAt(text: string, words: seq<string>, i: nat) {
    exists k :: 0 <= k < |words| && OccursAt(text, words[k], i)
  }

  /** `word` occurs somewhere in `text`. */
  ghost predicate Contains(text: string, word: string) {
    exists i :: 0 <= i <= |text| && OccursAt(text, word, i)
  }

  /** The declarative reading of `/w1|w2|.../.test(text)`: some word occurs somewhere. */
  ghost predicate Mentions(text: string, words: seq<string>) {
    exists k, i :: 0 <= k < |words| && 0 <= i <= |text| && OccursAt(text, words[k], i)
  }

  /**
   * The leftmost index at or after `from` where an alternative matches, as a
   * backtracking regular-expression engine finds it by trying each start in turn.
   */
  function Scan(text: string, words: seq<string>, from: nat): (r: Option<nat>)
    decreases |text| + 1 - from
    ensures r.Some? ==> from <= r.value <= |text| && AnyAt(text, words, r.value)
    ensures r.Some? ==> forall j :: from <= j < r.value ==> !AnyAt(text, words, j)
    ensures r.None? ==> forall j :: from <= j <= |text| ==> !AnyAt(text, words, j)
  {
    if from > |text| then None
    else if AnyAt(text, words, from) then Some(from)
    else Scan(text, words, from + 1)
  }

  /** `/w1|w2|.../.test(text)` */
  predicate Test(text: string, words: seq<string>) {
    Scan(text, words, 0).Some?
  }

  /** The scanning search answers exactly the declarative question. */
  lemma TestIffMentions(text: string, words: seq<string>)
    ensures Test(text, words) <==> Mentions(text, words)
  {
    if Test(text, words) {
      var i := Scan(text, words, 0).value;
      var k :| 0 <= k < |words| && OccursAt(text, words[k], i);
    } else {
      forall k, i | 0 <= k < |words| && 0 <= i <= |text|
        ensures !OccursAt(text, words[k], i)
      {
        assert !AnyAt(text, words, i);
      }
    }
  }
}
