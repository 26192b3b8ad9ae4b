/** Substring search, as strings.Contains does it. */
module Strings {
  predicate Contains<T(==)>(s: seq<T>, sub: seq<T>) {
    sub <= s || (s != [] && Contains(s[1..], sub))
  }

  predicate AnyOfSubstr<T(==)>(s: seq<T>, variants: seq<seq<T>>) {
    variants != [] && (Contains(s, variants[0]) || AnyOfSubstr(s, variants[1..]))
  }

  lemma {:induction false} AnyMeans<T>(s: seq<T>, variants: seq<seq<T>>)
    ensures AnyOfSubstr(s, variants) <==> exists k :: 0 <= k < |variants| && Contains(s, variants[k])
    decreases |variants|
  {
    if variants != [] {
      AnyMeans(s, variants[1..]);
      assert variants == [variants[0]] + variants[1..];
    }
  }

  predicate OccursAt<T(==)>(s: seq<T>, sub: seq<T>, i: nat) {
    i + |sub| <= |s| && s[i..i + |sub|] == sub
  }

  /** A substring is found exactly if it occurs at some place. */
  lemma {:induction false} ContainsMeans<T>(s: seq<T>, sub: seq<T>)
    ensures Contains(s, sub) <==> exists i: nat :: OccursAt(s, sub, i)
  {
    if sub <= s {
      assert OccursAt(s, sub, 0);
    } else if s != [] {
      ContainsMeans(s[1..], sub);
      if Contains(s[1..], sub) {
        var i: nat :| OccursAt(s[1..], sub, i);
        assert s[1..][i..i + |sub|] == s[i + 1..i + 1 + |sub|];
        assert OccursAt(s, sub, i + 1);
      }
      forall i: nat | OccursAt(s, sub, i) ensures Contains(s[1..], sub) {
        assert i > 0;
        assert s[1..][i - 1..i - 1 + |sub|] == s[i..i + |sub|];
        assert OccursAt(s[1..], sub, i - 1);
      }
    }
  }
}
