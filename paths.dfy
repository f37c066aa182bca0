/**
 * Go's `path.Ext`, shared by the storing service's object-key derivation and
 * the gateway's `makeObjectKey`: the suffix of the last slash-separated
 * element of a path that starts at its last '.', or "" when that element has
 * no '.'.
 */
module Paths {

  /** The part of `p` after its last '/' (all of `p` when it has none). */
  function LastElement(p: string): (r: string)
    ensures |r| <= |p|
    ensures forall i :: 0 <= i < |r| ==> r[i] != '/'
  {
    if p == [] || p[|p| - 1] == '/' then [] else LastElement(p[..|p| - 1]) + [p[|p| - 1]]
  }

  /** The last element is a suffix of the path, preceded by '/' when it is not all of it. */
  lemma {:induction false} LastElementIsSuffix(p: string)
    ensures LastElement(p) == p[|p| - |LastElement(p)|..]
    ensures |LastElement(p)| < |p| ==> p[|p| - |LastElement(p)| - 1] == '/'
  {
    if p != [] && p[|p| - 1] != '/' {
      var init := p[..|p| - 1];
      var t := LastElement(init);
      LastElementIsSuffix(init);
      assert p[|p| - |t| - 1..] == init[|init| - |t|..] + [p[|p| - 1]];
    }
  }

  /** `path.Ext`: scan back from the end, stopping at '/', and cut at the first '.' met. */
  function Ext(p: string): (r: string)
    ensures |r| <= |p|
    ensures r == "" || r[0] == '.'
  {
    if p == [] || p[|p| - 1] == '/' then ""
    else if p[|p| - 1] == '.' then "."
    else
      var e := Ext(p[..|p| - 1]);
      if e == "" then "" else e + [p[|p| - 1]]
  }

  /** The extension is a suffix of the path no longer than its last element. */
  lemma {:induction false} ExtIsSuffix(p: string)
    ensures |Ext(p)| <= |LastElement(p)|
    ensures Ext(p) == p[|p| - |Ext(p)|..]
  {
    if p != [] && p[|p| - 1] != '/' && p[|p| - 1] != '.' {
      var init := p[..|p| - 1];
      var e := Ext(init);
      ExtIsSuffix(init);
      assert LastElement(p) == LastElement(init) + [p[|p| - 1]];
      if e != "" {
        assert Ext(p) == e + [p[|p| - 1]];
        assert p[|p| - |e| - 1..] == init[|init| - |e|..] + [p[|p| - 1]];
      }
    }
  }

  /** A non-empty extension is '.' followed by characters other than '.'. */
  lemma {:induction false} ExtStartsAtLastDot(p: string)
    ensures Ext(p) == "" || (Ext(p)[0] == '.' && forall i :: 1 <= i < |Ext(p)| ==> Ext(p)[i] != '.')
  {
    if p != [] && p[|p| - 1] != '/' && p[|p| - 1] != '.' {
      ExtStartsAtLastDot(p[..|p| - 1]);
    }
  }

  /**
   * A non-empty extension starts with '.', is a suffix of the last element
   * of the path, and contains no other '.'; in particular it holds no '/'.
   */
  lemma {:induction false} ExtShape(p: string)
    ensures var e := Ext(p);
      e == "" || (
        && e[0] == '.'
        && |e| <= |LastElement(p)| && e == p[|p| - |e|..]
        && forall i :: 1 <= i < |e| ==> e[i] != '.')
  {
    ExtIsSuffix(p);
    ExtStartsAtLastDot(p);
  }

  /** The extension is empty exactly when the last element of the path has no '.'. */
  lemma {:induction false} ExtEmptyIff(p: string)
    ensures Ext(p) == "" <==> '.' !in LastElement(p)
  {
    if p != [] && p[|p| - 1] != '/' && p[|p| - 1] != '.' {
      var init := p[..|p| - 1];
      ExtEmptyIff(init);
      assert LastElement(p) == LastElement(init) + [p[|p| - 1]];
    }
  }
}
