/**
 * The word-cloud client's text processing: splitting a document into words
 * (maximal runs of letters and digits of the lower-cased text, keeping only
 * runs longer than two characters) and counting how often each word that is
 * not a stop word occurs.
 */
module WordCloud {
  import opened Unicode

  // ---------------------------------------------------------------------------
  // Specification of extractWords
  // ---------------------------------------------------------------------------

  predicate AllWordChars(s: string) {
    forall i :: 0 <= i < |s| ==> IsWordChar(s[i])
  }

  /** The longest suffix of `s` made of letters and digits. */
  function TrailingRun(s: string): (r: string)
    ensures |r| <= |s|
    ensures s != [] && IsWordChar(s[|s| - 1]) ==> |r| >= 1
  {
    if s == [] || !IsWordChar(s[|s| - 1]) then [] else TrailingRun(s[..|s| - 1]) + [s[|s| - 1]]
  }

  /** The maximal runs of letters and digits of `s`, in order of appearance. */
  function Runs(s: string): seq<string>
    decreases |s|
  {
    if s == [] then []
    else if !IsWordChar(s[|s| - 1]) then Runs(s[..|s| - 1])
    else
      var k := |TrailingRun(s)|;
      Runs(s[..|s| - k]) + [s[|s| - k..]]
  }

  /** The runs longer than two characters (`currentWord.Len() > 2`). */
  function Long(runs: seq<string>): seq<string> {
    if runs == [] then []
    else Long(runs[..|runs| - 1]) + (if |runs[|runs| - 1]| > 2 then [runs[|runs| - 1]] else [])
  }

  /** The words `extractWords` returns for a content. */
  function Words(content: string): seq<string> {
    Long(Runs(Lower(content)))
  }

  // ---------------------------------------------------------------------------
  // extractWords
  // ---------------------------------------------------------------------------

  /**
   * The trailing run is the longest suffix made of letters and digits: it is
   * a suffix, all its characters are letters or digits, and the character
   * before it, if any, is not.
   */
  lemma {:induction false} TrailingRunIsSuffix(s: string)
    ensures TrailingRun(s) == s[|s| - |TrailingRun(s)|..]
    ensures AllWordChars(TrailingRun(s))
    ensures |TrailingRun(s)| < |s| ==> !IsWordChar(s[|s| - |TrailingRun(s)| - 1])
    decreases |s|
  {
    if s != [] && IsWordChar(s[|s| - 1]) {
      var init := s[..|s| - 1];
      var t := TrailingRun(init);
      TrailingRunIsSuffix(init);
      assert TrailingRun(s) == t + [s[|s| - 1]];
      assert s[|s| - |t| - 1..] == init[|init| - |t|..] + [s[|s| - 1]];
    }
  }

  /** Appending one character extends the trailing run or ends it. */
  lemma {:induction false} TrailingRunAppend(s: string, c: char)
    ensures TrailingRun(s + [c]) == if IsWordChar(c) then TrailingRun(s) + [c] else []
  {
    assert (s + [c])[..|s|] == s;
  }

  /** A character that is neither a letter nor a digit adds no run. */
  lemma {:induction false} RunsAppendSeparator(s: string, c: char)
    requires !IsWordChar(c)
    ensures Runs(s + [c]) == Runs(s)
  {
    assert (s + [c])[..|s|] == s;
  }

  lemma {:induction false} LongAppend(runs: seq<string>, r: string)
    ensures Long(runs + [r]) == Long(runs) + (if |r| > 2 then [r] else [])
  {
    assert (runs + [r])[..|runs|] == runs;
  }

  /** Closing the trailing run of `s` adds it to the words when it is long enough. */
  lemma {:induction false} LongRunsFlush(s: string)
    ensures var cur := TrailingRun(s);
      Long(Runs(s)) == Long(Runs(s[..|s| - |cur|])) + (if |cur| > 2 then [cur] else [])
  {
    var cur := TrailingRun(s);
    if cur == [] {
      assert s[..|s|] == s;
    } else {
      RunsEndWithTrailingRun(s);
      LongAppend(Runs(s[..|s| - |cur|]), cur);
    }
  }

  /** When `s` ends in a letter or digit, its last run is its trailing run. */
  lemma {:induction false} RunsEndWithTrailingRun(s: string)
    requires TrailingRun(s) != []
    ensures Runs(s) == Runs(s[..|s| - |TrailingRun(s)|]) + [TrailingRun(s)]
  {
    TrailingRunIsSuffix(s);
    assert s != [] && IsWordChar(s[|s| - 1]);
  }

  /** Reading a letter or digit extends the current word and leaves the finished words alone. */
  lemma {:induction false} ScanWordChar(text: string, i: nat, cur: string, words: seq<string>)
    requires i < |text| && IsWordChar(text[i])
    requires cur == TrailingRun(text[..i]) && words == Long(Runs(text[..i - |cur|]))
    ensures cur + [text[i]] == TrailingRun(text[..i + 1])
    ensures words == Long(Runs(text[..i + 1 - |cur + [text[i]]|]))
  {
    assert text[..i + 1] == text[..i] + [text[i]];
    TrailingRunAppend(text[..i], text[i]);
  }

  /** Reading any other character closes the current word, keeping it when it is longer than two. */
  lemma {:induction false} ScanSeparator(text: string, i: nat, cur: string, words: seq<string>)
    requires i < |text| && !IsWordChar(text[i])
    requires cur == TrailingRun(text[..i]) && words == Long(Runs(text[..i - |cur|]))
    ensures [] == TrailingRun(text[..i + 1])
    ensures words + (if |cur| > 2 then [cur] else []) == Long(Runs(text[..i + 1]))
  {
    var prefix := text[..i];
    assert text[..i + 1] == prefix + [text[i]];
    TrailingRunAppend(prefix, text[i]);
    RunsAppendSeparator(prefix, text[i]);
    LongRunsFlush(prefix);
    assert prefix[..|prefix| - |cur|] == text[..i - |cur|];
  }

  /** At the end of the text, flushing the current word completes the words. */
  lemma {:induction false} ScanEnd(text: string, cur: string, words: seq<string>)
    requires cur == TrailingRun(text[..|text|]) && words == Long(Runs(text[..|text| - |cur|]))
    ensures words + (if |cur| > 2 then [cur] else []) == Long(Runs(text))
  {
    LongRunsFlush(text[..|text|]);
    WholeSlice(text);
  }

  lemma {:induction false} WholeSlice(s: string)
    ensures s[..|s|] == s
  {
  }

  /** `extractWords`: lower-case the text, then collect its runs of letters and digits longer than two. */
  method ExtractWords(content: string) returns (words: seq<string>)
    requires IsAscii(content)
    ensures words == Words(content)
  {
    var text := Lower(content);
    words := [];
    var currentWord := "";
    for i := 0 to |text|
      invariant currentWord == TrailingRun(text[..i])
      invariant words == Long(Runs(text[..i - |currentWord|]))
    {
      if IsWordChar(text[i]) {
        ScanWordChar(text, i, currentWord, words);
        currentWord := currentWord + [text[i]];
      } else {
        ScanSeparator(text, i, currentWord, words);
        if |currentWord| > 2 {
          words := words + [currentWord];
        }
        currentWord := "";
      }
    }
    ScanEnd(text, currentWord, words);
    if |currentWord| > 2 {
      words := words + [currentWord];
    }
  }

  // ---------------------------------------------------------------------------
  // Properties of the split
  // ---------------------------------------------------------------------------

  /** Every run is non-empty and made only of letters and digits. */
  lemma {:induction false} RunsWellFormed(s: string)
    ensures forall j :: 0 <= j < |Runs(s)| ==> |Runs(s)[j]| > 0 && AllWordChars(Runs(s)[j])
    decreases |s|
  {
    if s != [] {
      if !IsWordChar(s[|s| - 1]) {
        RunsWellFormed(s[..|s| - 1]);
      } else {
        TrailingRunIsSuffix(s);
        RunsWellFormed(s[..|s| - |TrailingRun(s)|]);
        assert Runs(s) == Runs(s[..|s| - |TrailingRun(s)|]) + [TrailingRun(s)];
      }
    }
  }

  /** A run does not extend across a character that is neither a letter nor a digit. */
  lemma {:induction false} TrailingRunStopsAtSeparator(a: string, c: char, b: string)
    requires !IsWordChar(c)
    ensures TrailingRun(a + [c] + b) == TrailingRun(b)
    decreases |b|
  {
    if b == [] {
      assert (a + [c] + b)[|a + [c] + b| - 1] == c;
    } else {
      assert (a + [c] + b)[..|a + [c] + b| - 1] == a + [c] + b[..|b| - 1];
      TrailingRunStopsAtSeparator(a, c, b[..|b| - 1]);
    }
  }

  /** A separator splits the runs: the runs of `a + [c] + b` are those of a followed by those of b. */
  lemma {:induction false} RunsSplitAtSeparator(a: string, c: char, b: string)
    requires !IsWordChar(c)
    ensures Runs(a + [c] + b) == Runs(a) + Runs(b)
    decreases |b|
  {
    var s := a + [c] + b;
    if b == [] {
      assert s[..|s| - 1] == a;
    } else if !IsWordChar(b[|b| - 1]) {
      RunsDropSeparator(a, c, b);
      RunsSplitAtSeparator(a, c, b[..|b| - 1]);
    } else {
      var k := |TrailingRun(b)|;
      RunsDropLastRun(a, c, b, k);
      RunsSplitAtSeparator(a, c, b[..|b| - k]);
    }
  }

  lemma {:induction false} RunsDropSeparator(a: string, c: char, b: string)
    requires !IsWordChar(c) && b != [] && !IsWordChar(b[|b| - 1])
    ensures Runs(a + [c] + b) == Runs(a + [c] + b[..|b| - 1])
    ensures Runs(b) == Runs(b[..|b| - 1])
  {
    var s := a + [c] + b;
    assert s[..|s| - 1] == a + [c] + b[..|b| - 1];
  }

  lemma {:induction false} RunsDropLastRun(a: string, c: char, b: string, k: nat)
    requires !IsWordChar(c) && b != [] && IsWordChar(b[|b| - 1]) && k == |TrailingRun(b)|
    ensures k <= |b|
    ensures Runs(a + [c] + b) == Runs(a + [c] + b[..|b| - k]) + [b[|b| - k..]]
    ensures Runs(b) == Runs(b[..|b| - k]) + [b[|b| - k..]]
  {
    var s := a + [c] + b;
    TrailingRunStopsAtSeparator(a, c, b);
    assert s[..|s| - k] == a + [c] + b[..|b| - k];
    assert s[|s| - k..] == b[|b| - k..];
  }

  /** A non-empty string of letters and digits is a single run. */
  lemma {:induction false} RunsOfWord(w: string)
    requires |w| > 0 && AllWordChars(w)
    ensures TrailingRun(w) == w
    ensures Runs(w) == [w]
    decreases |w|
  {
    if |w| > 1 {
      RunsOfWord(w[..|w| - 1]);
      assert w == w[..|w| - 1] + [w[|w| - 1]];
    }
    assert w[..0] == [];
  }

  lemma {:induction false} LongKeepsLong(runs: seq<string>)
    ensures forall j :: 0 <= j < |Long(runs)| ==> |Long(runs)[j]| > 2 && Long(runs)[j] in runs
  {
    if runs != [] {
      LongKeepsLong(runs[..|runs| - 1]);
    }
  }

  lemma {:induction false} RunsOfLowerAreLower(s: string)
    requires forall i :: 0 <= i < |s| ==> !('A' <= s[i] <= 'Z')
    ensures forall j, i :: 0 <= j < |Runs(s)| && 0 <= i < |Runs(s)[j]| ==> !('A' <= Runs(s)[j][i] <= 'Z')
    decreases |s|
  {
    if s != [] {
      var k := if IsWordChar(s[|s| - 1]) then |TrailingRun(s)| else 1;
      RunsOfLowerAreLower(s[..|s| - k]);
      if !IsWordChar(s[|s| - 1]) { assert s[..|s| - 1] == s[..|s| - k]; }
    }
  }

  /** Every word is longer than two characters and made only of lower-case letters and digits. */
  lemma {:induction false} WordsWellFormed(content: string)
    ensures forall j :: 0 <= j < |Words(content)| ==>
      var w := Words(content)[j];
      |w| > 2 && AllWordChars(w) && forall i :: 0 <= i < |w| ==> !('A' <= w[i] <= 'Z')
  {
    var runs := Runs(Lower(content));
    RunsWellFormed(Lower(content));
    RunsOfLowerAreLower(Lower(content));
    LongKeepsLong(runs);
    forall j | 0 <= j < |Words(content)|
      ensures var w := Words(content)[j];
        |w| > 2 && AllWordChars(w) && forall i :: 0 <= i < |w| ==> !('A' <= w[i] <= 'Z')
    {
      var w := Words(content)[j];
      var jj :| 0 <= jj < |runs| && runs[jj] == w;
    }
  }

  // ---------------------------------------------------------------------------
  // countWordFrequency
  // ---------------------------------------------------------------------------

  const StopWords: set<string> := {
    "the", "be", "to", "of", "and", "a", "in", "that", "have", "i",
    "it", "for", "not", "on", "with", "he", "as", "you", "do", "at",
    "this", "but", "his", "by", "from", "they", "we", "say", "her", "she",
    "or", "an", "will", "my", "one", "all", "would", "there", "their"}

  /** A word `countWordFrequency` counts. */
  predicate Counted(w: string) {
    w !in StopWords && |w| > 2
  }

  /**
   * `countWordFrequency`: the keys are the input words that are counted,
   * each with its number of occurrences. Together the counts are the
   * multiplicities of `KeptWords(words)`, so they add up to at most the
   * number of words.
   */
  method CountWordFrequency(words: seq<string>) returns (freq: map<string, int>)
    ensures forall w :: w in freq <==> w in words && Counted(w)
    ensures forall w :: w in freq ==> freq[w] == multiset(words)[w]
    ensures forall w :: (if w in freq then freq[w] else 0) == multiset(KeptWords(words))[w]
  {
    freq := map[];
    for i := 0 to |words|
      invariant forall w :: w in freq <==> w in words[..i] && Counted(w)
      invariant forall w :: w in freq ==> freq[w] == multiset(words[..i])[w]
    {
      assert words[..i + 1] == words[..i] + [words[i]];
      var word := words[i];
      if word !in StopWords && |word| > 2 {
        freq := freq[word := (if word in freq then freq[word] else 0) + 1];
      }
    }
    assert words[..|words|] == words;
    FrequenciesAreKeptMultiplicities(words);
  }

  /** The counted words, in order. */
  function KeptWords(words: seq<string>): seq<string> {
    if words == [] then []
    else KeptWords(words[..|words| - 1]) + (if Counted(words[|words| - 1]) then [words[|words| - 1]] else [])
  }

  /**
   * The counted words keep the multiplicity of every counted word and drop
   * every other word, so they are at most as many as the words.
   */
  lemma {:induction false} FrequenciesAreKeptMultiplicities(words: seq<string>)
    ensures |KeptWords(words)| <= |words|
    ensures forall w :: Counted(w) ==> multiset(KeptWords(words))[w] == multiset(words)[w]
    ensures forall w :: !Counted(w) ==> multiset(KeptWords(words))[w] == 0
    decreases |words|
  {
    if words != [] {
      var init := words[..|words| - 1];
      FrequenciesAreKeptMultiplicities(init);
      assert words == init + [words[|words| - 1]];
    }
  }
}
