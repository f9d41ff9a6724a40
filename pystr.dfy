/**
 * The Python `str` built-ins the pipeline relies on: `split()` with no
 * argument, `replace` of a single character, and the slice `s[:n]`.
 */
module PyStr {

  /** The characters `str.split()` treats as separators: the ASCII and Latin-1 ones. */
  predicate IsSpace(c: char) {
    || c == ' ' || c == '\t' || c == '\n' || c == '\r' || c == '\U{B}' || c == '\U{C}'
    || ('\U{1C}' <= c <= '\U{1F}') || c == '\U{85}' || c == '\U{A0}'
  }

  /** A word as `split()` returns it: non-empty and free of separators. */
  predicate IsWord(w: string) {
    |w| > 0 && forall i :: 0 <= i < |w| ==> !IsSpace(w[i])
  }

  /** The length of the run of non-separator characters that starts `s`. */
  function LeadingWordLength(s: string): (n: nat)
    ensures n <= |s|
    ensures forall i :: 0 <= i < n ==> !IsSpace(s[i])
    ensures n < |s| ==> IsSpace(s[n])
  {
    if s == [] || IsSpace(s[0]) then 0 else 1 + LeadingWordLength(s[1..])
  }

  /** `s.split()`: the maximal runs of non-separator characters of `s`, in order. */
  function Split(s: string): (words: seq<string>)
    ensures forall i :: 0 <= i < |words| ==> IsWord(words[i])
    decreases |s|
  {
    if s == [] then []
    else if IsSpace(s[0]) then Split(s[1..])
    else
      var n := LeadingWordLength(s);
      [s[..n]] + Split(s[n..])
  }

  /** `len(s.split())`. */
  function WordCount(s: string): nat {
    |Split(s)|
  }

  /** Position `i` of `s` is the last character of a maximal non-separator run. */
  predicate EndsRun(s: string, i: int) {
    0 <= i < |s| && !IsSpace(s[i]) && (i + 1 == |s| || IsSpace(s[i + 1]))
  }

  /** The number of maximal non-separator runs of `s`, counted by their last characters. */
  function RunCount(s: string): nat {
    if s == [] then 0 else (if EndsRun(s, 0) then 1 else 0) + RunCount(s[1..])
  }

  /** The characters of `s` that are not separators, in order. */
  function NonSpace(s: string): string {
    if s == [] then [] else (if IsSpace(s[0]) then [] else [s[0]]) + NonSpace(s[1..])
  }

  function Concat(words: seq<string>): string {
    if words == [] then [] else words[0] + Concat(words[1..])
  }

  lemma {:induction false} RunCountSkipsWord(s: string)
    requires s != [] && !IsSpace(s[0])
    ensures RunCount(s) == 1 + RunCount(s[LeadingWordLength(s)..])
    decreases |s|
  {
    var n := LeadingWordLength(s);
    if n == 1 {
      assert EndsRun(s, 0);
    } else {
      assert !EndsRun(s, 0);
      assert LeadingWordLength(s[1..]) == n - 1;
      RunCountSkipsWord(s[1..]);
      assert s[1..][n - 1..] == s[n..];
    }
  }

  /** The word count of `split()` is the number of maximal non-separator runs. */
  lemma {:induction false} WordCountIsRunCount(s: string)
    ensures WordCount(s) == RunCount(s)
    decreases |s|
  {
    if s == [] {
    } else if IsSpace(s[0]) {
      assert !EndsRun(s, 0);
      WordCountIsRunCount(s[1..]);
    } else {
      RunCountSkipsWord(s);
      WordCountIsRunCount(s[LeadingWordLength(s)..]);
    }
  }

  lemma {:induction false} NonSpaceSkipsWord(s: string)
    requires s != [] && !IsSpace(s[0])
    ensures NonSpace(s) == s[..LeadingWordLength(s)] + NonSpace(s[LeadingWordLength(s)..])
    decreases |s|
  {
    var n := LeadingWordLength(s);
    if n > 1 {
      assert LeadingWordLength(s[1..]) == n - 1;
      NonSpaceSkipsWord(s[1..]);
      assert s[1..][n - 1..] == s[n..];
      assert s[..n] == [s[0]] + s[1..][..n - 1];
    }
  }

  /** `split()` loses only separators: its words, concatenated, are the non-separator characters. */
  lemma {:induction false} SplitKeepsNonSpace(s: string)
    ensures Concat(Split(s)) == NonSpace(s)
    decreases |s|
  {
    if s == [] {
    } else if IsSpace(s[0]) {
      SplitKeepsNonSpace(s[1..]);
    } else {
      var n := LeadingWordLength(s);
      NonSpaceSkipsWord(s);
      SplitKeepsNonSpace(s[n..]);
      assert ([s[..n]] + Split(s[n..]))[1..] == Split(s[n..]);
    }
  }

  lemma {:induction false} RunCountAcrossSeparator(a: string, c: char, b: string)
    requires IsSpace(c)
    ensures RunCount(a + [c] + b) == RunCount(a) + RunCount(b)
    decreases |a|
  {
    if a == [] {
      assert a + [c] + b == [c] + b;
      assert ([c] + b)[1..] == b;
      assert !EndsRun([c] + b, 0);
    } else {
      assert (a + [c] + b)[1..] == a[1..] + [c] + b;
      assert EndsRun(a + [c] + b, 0) == EndsRun(a, 0);
      RunCountAcrossSeparator(a[1..], c, b);
    }
  }

  /** Joining two texts with a separator adds their word counts. */
  lemma WordCountAcrossSeparator(a: string, c: char, b: string)
    requires IsSpace(c)
    ensures WordCount(a + [c] + b) == WordCount(a) + WordCount(b)
  {
    WordCountIsRunCount(a + [c] + b);
    WordCountIsRunCount(a);
    WordCountIsRunCount(b);
    RunCountAcrossSeparator(a, c, b);
  }

  /** A text made of separators only has no words. */
  lemma {:induction false} SeparatorsOnlyHaveNoWords(s: string)
    requires forall i :: 0 <= i < |s| ==> IsSpace(s[i])
    ensures WordCount(s) == 0
    decreases |s|
  {
    if s != [] {
      SeparatorsOnlyHaveNoWords(s[1..]);
    }
  }

  /** `s.replace(from, to)` for a one-character `from`. */
  function Replace(s: string, from: char, to: string): (r: string)
    ensures from !in to ==> from !in r
  {
    if s == [] then [] else (if s[0] == from then to else [s[0]]) + Replace(s[1..], from, to)
  }

  /** Replacing a character by a character keeps the length and changes exactly the matching positions. */
  lemma {:induction false} ReplaceByChar(s: string, from: char, to: char)
    ensures |Replace(s, from, [to])| == |s|
    ensures forall i :: 0 <= i < |s| ==>
      Replace(s, from, [to])[i] == (if s[i] == from then to else s[i])
    decreases |s|
  {
    if s != [] {
      ReplaceByChar(s[1..], from, to);
    }
  }

  /** Replacing a character by the empty string deletes every occurrence and keeps every other character. */
  lemma {:induction false} ReplaceByEmpty(s: string, from: char)
    ensures from !in Replace(s, from, "")
    ensures |Replace(s, from, "")| == |s| - multiset(s)[from]
    ensures forall c :: c != from ==> multiset(Replace(s, from, ""))[c] == multiset(s)[c]
    decreases |s|
  {
    if s != [] {
      ReplaceByEmpty(s[1..], from);
      assert s == [s[0]] + s[1..];
    }
  }

  /** `s[:n]` for a non-negative `n`. */
  function Prefix(s: string, n: nat): (r: string)
    ensures |r| == if |s| <= n then |s| else n
    ensures r <= s
  {
    if |s| <= n then s else s[..n]
  }
}
