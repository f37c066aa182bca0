/**
 * The n-gram similarity comparator of the analysis service.
 *
 * Both texts are normalised (letters and digits kept, lower-cased), cut into
 * the set of their 3-character substrings, and scored by the Jaccard ratio of
 * the two sets times 100. Two empty normalised texts score 100, exactly one
 * empty text scores 0, and two texts without any 3-gram score 0.
 */
module Comparator {
  import opened Wrappers
  import opened Errdefs
  import opened Unicode

  /** The shingle length `n` that `calculateSimilarity` passes to `createNGrams`. */
  const NGramLength: nat := 3

  // ---------------------------------------------------------------------------
  // Specification
  // ---------------------------------------------------------------------------

  /** What `normalizeText` keeps of one character. */
  function Kept(c: char): string {
    if IsWordChar(c) then [ToLower(c)] else []
  }

  /** The text `normalizeText` builds: the letters and digits of `s`, lower-cased, in order. */
  function Normalized(s: string): (r: string)
    ensures |r| <= |s|
    ensures forall i :: 0 <= i < |r| ==> IsWordChar(r[i]) && ToLower(r[i]) == r[i]
  {
    if s == [] then [] else Normalized(s[..|s| - 1]) + Kept(s[|s| - 1])
  }

  /** The n-gram of `t` that starts at index i. */
  function Shingle(t: string, n: nat, i: nat): string
    requires i + n <= |t|
  {
    t[i..i + n]
  }

  /** The n-grams `t[i..i+n]` for `0 <= i < k`. */
  function Shingles(t: string, n: nat, k: nat): set<string>
    requires k == 0 || k + n - 1 <= |t|
  {
    set i | 0 <= i < k :: Shingle(t, n, i)
  }

  /** The set `createNGrams(t, n)` returns: every `t[i..i+n]` with `0 <= i <= |t| - n`. */
  function NGrams(t: string, n: nat): set<string> {
    if |t| < n then {} else Shingles(t, n, |t| - n + 1)
  }

  /** Jaccard ratio of two shingle sets, times 100; 0 when both are empty. */
  function Jaccard(a: set<string>, b: set<string>): real {
    if |a + b| == 0 then 0.0 else (|a * b| as real / |a + b| as real) * 100.0
  }

  /** The score `calculateSimilarity` returns for two normalised texts. */
  function Similarity(t1: string, t2: string): real {
    if |t1| == 0 && |t2| == 0 then 100.0
    else if |t1| == 0 || |t2| == 0 then 0.0
    else Jaccard(NGrams(t1, NGramLength), NGrams(t2, NGramLength))
  }

  /** The score `CompareFiles` returns for two raw contents. */
  function Score(file1: string, file2: string): real {
    Similarity(Normalized(file1), Normalized(file2))
  }

  // ---------------------------------------------------------------------------
  // The implementation, one method per Go function
  // ---------------------------------------------------------------------------

  method NormalizeText(text: string) returns (r: string)
    ensures r == Normalized(text)
  {
    r := [];
    for i := 0 to |text|
      invariant r == Normalized(text[..i])
    {
      assert text[..i + 1][..i] == text[..i];
      if IsWordChar(text[i]) {
        r := r + [ToLower(text[i])];
      }
    }
    assert text[..|text|] == text;
  }

  method CreateNGrams(text: string, n: nat) returns (ngrams: set<string>)
    ensures ngrams == NGrams(text, n)
  {
    ngrams := {};
    var i := 0;
    while i <= |text| - n
      invariant 0 <= i && (i == 0 || i + n - 1 <= |text|)
      invariant ngrams == Shingles(text, n, i)
      decreases |text| - n - i
    {
      ShinglesStep(text, n, i + 1);
      ngrams := ngrams + {text[i..i + n]};
      i := i + 1;
    }
  }

  method CalculateSimilarity(text1: string, text2: string) returns (r: real)
    ensures r == Similarity(text1, text2)
  {
    if |text1| == 0 && |text2| == 0 {
      return 100.0;
    }
    if |text1| == 0 || |text2| == 0 {
      return 0.0;
    }
    var ngrams1 := CreateNGrams(text1, NGramLength);
    var ngrams2 := CreateNGrams(text2, NGramLength);
    var intersection := CountShared(ngrams1, ngrams2);
    UnionSize(ngrams1, ngrams2);
    var union := |ngrams1| + |ngrams2| - intersection;
    if union == 0 {
      return 0.0;
    }
    r := (intersection as real / union as real) * 100.0;
  }

  /** The loop of `calculateSimilarity` that counts the n-grams of the first set found in the second. */
  method CountShared(ngrams1: set<string>, ngrams2: set<string>) returns (intersection: nat)
    ensures intersection == |ngrams1 * ngrams2|
  {
    intersection := 0;
    var rest := ngrams1;
    while rest != {}
      invariant rest <= ngrams1
      invariant intersection == |(ngrams1 - rest) * ngrams2|
      decreases |rest|
    {
      var ngram :| ngram in rest;
      CountStep(ngrams1, rest, ngrams2, ngram);
      if ngram in ngrams2 {
        intersection := intersection + 1;
      }
      rest := rest - {ngram};
    }
    assert ngrams1 - rest == ngrams1;
  }

  method CompareFiles(file1: string, file2: string) returns (similarity: real, err: Option<GoError>)
    requires IsAscii(file1) && IsAscii(file2)
    ensures err == None
    ensures similarity == Score(file1, file2)
  {
    var text1 := NormalizeText(file1);
    var text2 := NormalizeText(file2);
    similarity := CalculateSimilarity(text1, text2);
    err := None;
  }

  // ---------------------------------------------------------------------------
  // Properties
  // ---------------------------------------------------------------------------

  /** The union `calculateSimilarity` computes as `|A| + |B| - |A ∩ B|` is the size of `A ∪ B`. */
  lemma {:induction false} UnionSize(a: set<string>, b: set<string>)
    ensures |a * b| <= |a| && |a * b| <= |b|
    ensures |a + b| == |a| + |b| - |a * b|
    ensures |a| <= |a + b| && |b| <= |a + b|
  {
    assert a == (a - b) + (a * b);
    assert b == (b - a) + (a * b);
    assert a + b == (a - b) + (b - a) + (a * b);
  }

  /** Visiting one more n-gram of the first set adds one to the count exactly when the second set holds it. */
  lemma {:induction false} CountStep(all: set<string>, rest: set<string>, other: set<string>, g: string)
    requires rest <= all && g in rest
    ensures |(all - (rest - {g})) * other| == |(all - rest) * other| + (if g in other then 1 else 0)
  {
    if g in other {
      assert (all - (rest - {g})) * other == ((all - rest) * other) + {g};
    } else {
      assert (all - (rest - {g})) * other == (all - rest) * other;
    }
  }

  /** Normalisation distributes over concatenation. */
  lemma {:induction false} NormalizedAppend(a: string, b: string)
    ensures Normalized(a + b) == Normalized(a) + Normalized(b)
    decreases |b|
  {
    if b == [] {
      assert a + b == a;
    } else {
      var b' := b[..|b| - 1];
      assert (a + b)[..|a + b| - 1] == a + b';
      NormalizedAppend(a, b');
    }
  }

  /** A text with no letter or digit normalises to nothing, and only such a text does. */
  lemma {:induction false} NormalizedEmpty(s: string)
    ensures Normalized(s) == [] <==> forall i :: 0 <= i < |s| ==> !IsWordChar(s[i])
    decreases |s|
  {
    if s != [] {
      var s' := s[..|s| - 1];
      NormalizedEmpty(s');
      assert forall i :: 0 <= i < |s'| ==> s'[i] == s[i];
    }
  }

  /** Normalising twice changes nothing: lower-case letters and digits are kept unchanged. */
  lemma {:induction false} NormalizedIdempotent(s: string)
    ensures Normalized(Normalized(s)) == Normalized(s)
  {
    var t := Normalized(s);
    FixedPoint(t);
  }

  lemma {:induction false} FixedPoint(t: string)
    requires forall i :: 0 <= i < |t| ==> IsWordChar(t[i]) && ToLower(t[i]) == t[i]
    ensures Normalized(t) == t
    decreases |t|
  {
    if t != [] {
      FixedPoint(t[..|t| - 1]);
      assert t == t[..|t| - 1] + [t[|t| - 1]];
    }
  }

  /** Each n-gram has length n and occurs in the text; each occurrence is an n-gram. */
  lemma {:induction false} NGramsMembership(t: string, n: nat, g: string)
    ensures g in NGrams(t, n) <==> |g| == n && exists i: nat :: i + n <= |t| && Shingle(t, n, i) == g
  {
  }

  lemma {:induction false} ShinglesStep(t: string, n: nat, k: nat)
    requires k > 0 && k + n - 1 <= |t|
    ensures Shingles(t, n, k) == Shingles(t, n, k - 1) + {Shingle(t, n, k - 1)}
  {
    forall g | g in Shingles(t, n, k) ensures g in Shingles(t, n, k - 1) + {Shingle(t, n, k - 1)} {
      var i :| 0 <= i < k && Shingle(t, n, i) == g;
      if i < k - 1 { assert g in Shingles(t, n, k - 1); }
    }
  }

  lemma {:induction false} ShinglesSize(t: string, n: nat, k: nat)
    requires k == 0 || k + n - 1 <= |t|
    ensures |Shingles(t, n, k)| <= k
  {
    if k > 0 {
      ShinglesStep(t, n, k);
      ShinglesSize(t, n, k - 1);
    }
  }

  /** A text has at most `|t| - n + 1` distinct n-grams, and none when shorter than n. */
  lemma {:induction false} NGramsSize(t: string, n: nat)
    ensures |t| < n ==> NGrams(t, n) == {}
    ensures |t| >= n ==> |NGrams(t, n)| <= |t| - n + 1
  {
    if |t| >= n { ShinglesSize(t, n, |t| - n + 1); }
  }

  /** A ratio of a part to a non-empty whole, as a percentage, lies in [0, 100]. */
  lemma {:induction false} PercentageBounds(part: nat, whole: nat)
    requires 0 < part <= whole
    ensures 0.0 <= (part as real / whole as real) * 100.0 <= 100.0
  {
    var r := part as real / whole as real;
    assert r * whole as real == part as real;
    assert r <= 1.0;
  }

  /** The Jaccard percentage of any two sets lies in [0, 100]. */
  lemma {:induction false} JaccardBounds(a: set<string>, b: set<string>)
    ensures 0.0 <= Jaccard(a, b) <= 100.0
  {
    UnionSize(a, b);
    if |a + b| > 0 && |a * b| > 0 {
      PercentageBounds(|a * b|, |a + b|);
    }
  }

  /** Every score lies in [0, 100]. */
  lemma {:induction false} SimilarityBounds(t1: string, t2: string)
    ensures 0.0 <= Similarity(t1, t2) <= 100.0
  {
    JaccardBounds(NGrams(t1, NGramLength), NGrams(t2, NGramLength));
  }

  /** The score does not depend on the order of its arguments. */
  lemma {:induction false} SimilaritySymmetric(t1: string, t2: string)
    ensures Similarity(t1, t2) == Similarity(t2, t1)
  {
    var a, b := NGrams(t1, NGramLength), NGrams(t2, NGramLength);
    assert a * b == b * a && a + b == b + a;
  }

  /** A normalised text of length at least 3 scores exactly 100 against itself. */
  lemma {:induction false} SelfSimilarity(t: string)
    requires |t| >= NGramLength
    ensures Similarity(t, t) == 100.0
  {
    var a := NGrams(t, NGramLength);
    assert Shingle(t, NGramLength, 0) in Shingles(t, NGramLength, |t| - 2);
    assert a * a == a && a + a == a;
    assert |a| > 0;
    assert |a * a| as real / |a + a| as real == 1.0;
  }

  /** A non-empty normalised text shorter than 3 has no n-gram and scores 0 even against itself. */
  lemma {:induction false} ShortSelfSimilarity(t: string)
    requires 0 < |t| < NGramLength
    ensures Similarity(t, t) == 0.0
  {
    assert NGrams(t, NGramLength) == {};
  }

  /** Two non-empty texts that share no 3-gram score 0. */
  lemma {:induction false} DisjointSimilarity(t1: string, t2: string)
    requires |t1| > 0 && |t2| > 0
    requires NGrams(t1, NGramLength) !! NGrams(t2, NGramLength)
    ensures Similarity(t1, t2) == 0.0
  {
    assert NGrams(t1, NGramLength) * NGrams(t2, NGramLength) == {};
  }

  /** Two contents with no letter or digit are identical (100); against one that has some, 0. */
  lemma {:induction false} BlankScores(file1: string, file2: string)
    requires forall i :: 0 <= i < |file1| ==> !IsWordChar(file1[i])
    ensures (forall i :: 0 <= i < |file2| ==> !IsWordChar(file2[i])) ==> Score(file1, file2) == 100.0
    ensures (exists i :: 0 <= i < |file2| && IsWordChar(file2[i])) ==> Score(file1, file2) == 0.0
  {
    NormalizedEmpty(file1);
    NormalizedEmpty(file2);
  }

  /** A content whose normalised text has at least 3 characters scores 100 against itself. */
  lemma {:induction false} SelfScore(file: string)
    requires |Normalized(file)| >= NGramLength
    ensures Score(file, file) == 100.0
  {
    SelfSimilarity(Normalized(file));
  }
}
