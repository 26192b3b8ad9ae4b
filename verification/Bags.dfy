/** Shared vocabulary: optional values, and the bag (multiset) of labels
    carried by the elements of a sequence. */
module Bags {
  datatype Option<+T> = None | Some(value: T)

  /** The multiset of all labels that f gives to the elements of s. */
  ghost function Bag<T, K>(s: seq<T>, f: T -> multiset<K>): multiset<K> {
    if s == [] then multiset{} else f(s[0]) + Bag(s[1..], f)
  }

  lemma {:induction false} BagConcat<T, K>(s: seq<T>, t: seq<T>, f: T -> multiset<K>)
    ensures Bag(s + t, f) == Bag(s, f) + Bag(t, f)
  {
    if s == [] {
      assert s + t == t;
    } else {
      assert (s + t)[1..] == s[1..] + t;
      BagConcat(s[1..], t, f);
    }
  }

  lemma BagSnoc<T, K>(s: seq<T>, x: T, f: T -> multiset<K>)
    ensures Bag(s + [x], f) == Bag(s, f) + f(x)
  {
    BagConcat(s, [x], f);
    assert [x][1..] == [];
    assert Bag([x], f) == f(x) + Bag([], f);
  }

  lemma BagSplit<T, K>(s: seq<T>, i: nat, f: T -> multiset<K>)
    requires i < |s|
    ensures Bag(s, f) == Bag(s[..i], f) + f(s[i]) + Bag(s[i + 1..], f)
  {
    assert s == s[..i] + s[i..] && s[i..][1..] == s[i + 1..];
    BagConcat(s[..i], s[i..], f);
  }

  /** Replacing one element exchanges its labels and no others. */
  lemma BagUpdate<T, K>(s: seq<T>, i: nat, x: T, f: T -> multiset<K>)
    requires i < |s|
    ensures Bag(s[i := x], f) + f(s[i]) == Bag(s, f) + f(x)
  {
    BagSplit(s, i, f);
    BagSplit(s[i := x], i, f);
    assert s[i := x][..i] == s[..i] && s[i := x][i + 1..] == s[i + 1..];
  }

  /** The same, counted for one label. */
  lemma BagUpdateAt<T, K>(s: seq<T>, i: nat, x: T, k: K, f: T -> multiset<K>)
    requires i < |s|
    ensures Bag(s[i := x], f)[k] + f(s[i])[k] == Bag(s, f)[k] + f(x)[k]
  {
    BagUpdate(s, i, x, f);
    assert (Bag(s[i := x], f) + f(s[i]))[k] == (Bag(s, f) + f(x))[k];
  }

  /** Replacing an element by one with more labels adds those labels. */
  lemma BagGrow<T, K>(s: seq<T>, i: nat, x: T, more: multiset<K>, f: T -> multiset<K>)
    requires i < |s| && f(x) == f(s[i]) + more
    ensures Bag(s[i := x], f) == Bag(s, f) + more
  {
    BagUpdate(s, i, x, f);
    var a, b := Bag(s[i := x], f), Bag(s, f) + more;
    assert a + f(s[i]) == b + f(s[i]);
    assert forall k :: a[k] == (a + f(s[i]))[k] - f(s[i])[k] && b[k] == (b + f(s[i]))[k] - f(s[i])[k];
  }

  /** A label in the bag comes from some element. */
  lemma {:induction false} BagWitness<T, K>(s: seq<T>, k: K, f: T -> multiset<K>) returns (i: nat)
    requires k in Bag(s, f)
    ensures i < |s| && k in f(s[i])
  {
    if k in f(s[0]) {
      i := 0;
    } else {
      var j := BagWitness(s[1..], k, f);
      i := j + 1;
    }
  }

  /** Every element contributes its labels to the bag. */
  lemma {:induction false} BagContains<T, K>(s: seq<T>, i: nat, k: K, f: T -> multiset<K>)
    requires i < |s|
    ensures f(s[i])[k] <= Bag(s, f)[k]
  {
    if i > 0 {
      BagContains(s[1..], i - 1, k, f);
    }
  }

  /** Two different elements with the same label are counted twice. */
  lemma {:induction false} BagContainsTwo<T, K>(s: seq<T>, i: nat, j: nat, k: K, f: T -> multiset<K>)
    requires i < j < |s|
    ensures f(s[i])[k] + f(s[j])[k] <= Bag(s, f)[k]
  {
    if i > 0 {
      BagContainsTwo(s[1..], i - 1, j - 1, k, f);
    } else {
      BagContains(s[1..], j - 1, k, f);
    }
  }
}
