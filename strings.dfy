/** Substring search on strings, as JavaScript's `String.prototype.includes`
    performs it: case-sensitive, no tokenisation, and the empty string occurs
    in every string. */
module Strings {

  /** `p` is a prefix of `s`. */
  predicate IsPrefix(p: string, s: string) {
    |p| <= |s| && s[..|p|] == p
  }

  /** `sub.includes`-style search: `sub` is a prefix of `s` or of one of its
      suffixes. This is the executable definition the model uses. */
  function Includes(s: string, sub: string): (r: bool)
    ensures sub == [] ==> r
    ensures r ==> |sub| <= |s|
    decreases |s|
  {
    IsPrefix(sub, s) || (|s| > 0 && Includes(s[1..], sub))
  }

  /** Reference definition: `sub` occurs in `s` starting at index `i`. */
  predicate OccursAt(s: string, sub: string, i: int) {
    0 <= i && i + |sub| <= |s| && s[i..i + |sub|] == sub
  }

  /** An occurrence at any index is found by `Includes`. */
  lemma {:induction false} IncludesFromOccurrence(s: string, sub: string, i: int)
    requires OccursAt(s, sub, i)
    ensures Includes(s, sub)
    decreases i
  {
    if i == 0 {
      assert s[..|sub|] == s[0..|sub|];
    } else {
      assert s[1..][i - 1..i - 1 + |sub|] == s[i..i + |sub|];
      IncludesFromOccurrence(s[1..], sub, i - 1);
    }
  }

  /** What `Includes` finds is an occurrence at some index. */
  lemma {:induction false} OccurrenceFromIncludes(s: string, sub: string) returns (i: int)
    requires Includes(s, sub)
    ensures OccursAt(s, sub, i)
    decreases |s|
  {
    if IsPrefix(sub, s) {
      i := 0;
      assert s[0..|sub|] == s[..|sub|];
    } else {
      var j := OccurrenceFromIncludes(s[1..], sub);
      i := j + 1;
      assert s[1..][j..j + |sub|] == s[i..i + |sub|];
    }
  }

  /** `Includes` agrees with the index-based reference definition in both
      directions. */
  lemma IncludesIffOccurs(s: string, sub: string)
    ensures Includes(s, sub) <==> exists i :: OccursAt(s, sub, i)
  {
    if Includes(s, sub) {
      var i := OccurrenceFromIncludes(s, sub);
    }
    forall i | OccursAt(s, sub, i)
      ensures Includes(s, sub)
    {
      IncludesFromOccurrence(s, sub, i);
    }
  }

  /** A string built around `mid` includes `mid`: the basis of "the message
      embeds the title". */
  lemma IncludesMiddle(pre: string, mid: string, post: string)
    ensures Includes(pre + mid + post, mid)
  {
    var s := pre + mid + post;
    assert s[|pre|..|pre| + |mid|] == mid;
    IncludesFromOccurrence(s, mid, |pre|);
  }
}
