/** `_.orderBy(rows, key)` with a string key: a stable ascending sort, here
    an insertion sort that puts each element after the ones not greater than
    it. */
module OrderBy {
  import Strings

  /** No element's key is greater than its successor's. */
  predicate SortedBy<T>(s: seq<T>, key: T -> string)
  {
    forall i :: 0 < i < |s| ==> !Strings.Greater(key(s[i - 1]), key(s[i]))
  }

  /** Insert `x` into a sorted sequence, after every element whose key is not
      greater than its own. */
  function Insert<T>(x: T, s: seq<T>, key: T -> string): (r: seq<T>)
    requires SortedBy(s, key)
    ensures SortedBy(r, key)
    ensures |r| == |s| + 1 && multiset(r) == multiset(s) + multiset{x}
    ensures r[0] == x || (|s| > 0 && r[0] == s[0])
  {
    if |s| == 0 then [x]
    else if Strings.Greater(key(s[0]), key(x)) then
      Strings.GreaterTrichotomy(key(s[0]), key(x));
      [x] + s
    else
      var rest := Insert(x, s[1..], key);
      assert s == [s[0]] + s[1..];
      [s[0]] + rest
  }

  /** The sorted permutation of `s`. */
  function Sort<T>(s: seq<T>, key: T -> string): (r: seq<T>)
    ensures SortedBy(r, key)
    ensures |r| == |s| && multiset(r) == multiset(s)
  {
    if |s| == 0 then []
    else
      assert s == s[..|s| - 1] + [s[|s| - 1]];
      Insert(s[|s| - 1], Sort(s[..|s| - 1], key), key)
  }

  /** In a sorted sequence no key is greater than the last one. */
  lemma {:induction false} SortedLastIsMaximal<T>(s: seq<T>, key: T -> string, i: nat)
    requires SortedBy(s, key) && i < |s|
    ensures !Strings.Greater(key(s[i]), key(s[|s| - 1]))
    decreases |s| - i
  {
    if i < |s| - 1 {
      SortedLastIsMaximal(s, key, i + 1);
      if Strings.Greater(key(s[i]), key(s[|s| - 1])) {
        Strings.GreaterTrichotomy(key(s[i + 1]), key(s[|s| - 1]));
        if key(s[i + 1]) == key(s[|s| - 1]) {
        } else {
          Strings.GreaterTransitive(key(s[i]), key(s[|s| - 1]), key(s[i + 1]));
        }
      }
    } else {
      Strings.GreaterTrichotomy(key(s[i]), key(s[i]));
    }
  }

  /** Inserting an element no key of `s` exceeds appends it. */
  lemma {:induction false} InsertAtEnd<T>(x: T, s: seq<T>, key: T -> string)
    requires SortedBy(s, key)
    requires forall i :: 0 <= i < |s| ==> !Strings.Greater(key(s[i]), key(x))
    ensures Insert(x, s, key) == s + [x]
  {
    if |s| > 0 {
      InsertAtEnd(x, s[1..], key);
      assert [s[0]] + (s[1..] + [x]) == s + [x];
    }
  }

  /** A prefix of a sorted sequence is sorted. */
  lemma SortedPrefix<T>(s: seq<T>, key: T -> string, n: nat)
    requires SortedBy(s, key) && n <= |s|
    ensures SortedBy(s[..n], key)
  {
  }

  /** In a sorted `init + [last]` no key of `init` exceeds that of `last`. */
  lemma InitBelowLast<T>(init: seq<T>, last: T, key: T -> string)
    requires SortedBy(init + [last], key)
    ensures forall i :: 0 <= i < |init| ==> !Strings.Greater(key(init[i]), key(last))
  {
    var s := init + [last];
    forall i | 0 <= i < |init| ensures !Strings.Greater(key(init[i]), key(last)) {
      SortedLastIsMaximal(s, key, i);
      assert s[i] == init[i] && s[|s| - 1] == last;
    }
  }

  /** Sorting an already sorted sequence changes nothing, so sorting twice
      is sorting once. */
  lemma {:induction false} SortSorted<T>(s: seq<T>, key: T -> string)
    requires SortedBy(s, key)
    ensures Sort(s, key) == s
  {
    if |s| > 0 {
      var init, last := s[..|s| - 1], s[|s| - 1];
      assert init + [last] == s;
      SortedPrefix(s, key, |s| - 1);
      SortSorted(init, key);
      InitBelowLast(init, last, key);
      InsertAtEnd(last, init, key);
      assert Sort(s, key) == Insert(last, Sort(init, key), key);
    }
  }

  lemma SortIdempotent<T>(s: seq<T>, key: T -> string)
    ensures Sort(Sort(s, key), key) == Sort(s, key)
  {
    SortSorted(Sort(s, key), key);
  }
}
