/** Sorting by an order that is a parameter, and the order Go's `<` gives strings. */
module Sorting {

  /** Whether a comes no later than b, character by character. */
  predicate Le(a: string, b: string) {
    a == "" || (b != "" && (a[0] < b[0] || (a[0] == b[0] && Le(a[1..], b[1..]))))
  }

  lemma {:induction false} LeTotal(a: string, b: string)
    ensures Le(a, b) || Le(b, a)
  {
    if a != "" && b != "" && a[0] == b[0] { LeTotal(a[1..], b[1..]); }
  }

  lemma {:induction false} LeTransitive(a: string, b: string, c: string)
    requires Le(a, b) && Le(b, c)
    ensures Le(a, c)
  {
    if a != "" && a[0] == b[0] && b[0] == c[0] { LeTransitive(a[1..], b[1..], c[1..]); }
  }

  lemma {:induction false} LeAntisymmetric(a: string, b: string)
    requires Le(a, b) && Le(b, a)
    ensures a == b
  {
    if a != "" {
      LeAntisymmetric(a[1..], b[1..]);
      assert a == [a[0]] + a[1..] && b == [b[0]] + b[1..];
    }
  }

  /** Up to k the strings are the same, and there the first one is smaller. */
  ghost predicate SmallerAt(a: string, b: string, k: nat) {
    k < |a| && k < |b| && a[..k] == b[..k] && a[k] < b[k]
  }

  lemma SmallerLater(a: string, b: string, k: nat)
    requires a != "" && b != "" && a[0] == b[0]
    ensures SmallerAt(a, b, k + 1) <==> SmallerAt(a[1..], b[1..], k)
  {
    if k < |a[1..]| && k < |b[1..]| {
      assert a[..k + 1] == [a[0]] + a[1..][..k] && b[..k + 1] == [b[0]] + b[1..][..k];
      assert a[1..][..k] == a[..k + 1][1..] && b[1..][..k] == b[..k + 1][1..];
    }
  }

  lemma SmallerAtFirst(a: string, b: string)
    requires a != "" && b != ""
    ensures SmallerAt(a, b, 0) <==> a[0] < b[0]
    ensures a[0] != b[0] ==> forall k: nat :: k > 0 ==> !SmallerAt(a, b, k)
  {
    assert forall k: nat :: 0 < k < |a| && k < |b| ==> a[..k][0] == a[0] && b[..k][0] == b[0];
  }

  /** A string comes no later than another if it begins it, or is smaller at the first difference. */
  lemma {:induction false} LeMeans(a: string, b: string)
    ensures Le(a, b) <==> a <= b || exists k: nat :: SmallerAt(a, b, k)
  {
    hide SmallerAt;
    if a != "" && b != "" {
      SmallerAtFirst(a, b);
      if a[0] == b[0] {
        LeMeans(a[1..], b[1..]);
        assert a == [a[0]] + a[1..] && b == [b[0]] + b[1..];
        if k: nat :| SmallerAt(a[1..], b[1..], k) { SmallerLater(a, b, k); }
        if k: nat :| SmallerAt(a, b, k) && k > 0 { SmallerLater(a, b, k - 1); }
      }
    } else if k: nat :| SmallerAt(a, b, k) {
      NothingSmaller(a, b, k);
    }
  }

  lemma NothingSmaller(a: string, b: string, k: nat)
    ensures SmallerAt(a, b, k) ==> a != "" && b != ""
  {
  }

  /** A sort key: strings compared one after the other. */
  type Key = seq<string>

  predicate Before(a: Key, b: Key) {
    a == [] || (b != [] && if a[0] == b[0] then Before(a[1..], b[1..]) else Le(a[0], b[0]))
  }

  /** Of two keys of two strings the first ones decide, and when those are equal the second ones. */
  lemma BeforeOfPairs(a: Key, b: Key)
    requires |a| == |b| == 2
    ensures Before(a, b) <==> if a[0] == b[0] then Le(a[1], b[1]) else Le(a[0], b[0])
  {
    LeTotal(a[1], a[1]);
    assert a[1..] == [a[1]] && b[1..] == [b[1]] && [a[1]][1..] == [];
    assert Before([a[1]], [b[1]]) <==> Le(a[1], b[1]);
  }

  lemma {:induction false} BeforeTotal(a: Key, b: Key)
    ensures Before(a, b) || Before(b, a)
  {
    if a != [] && b != [] {
      if a[0] == b[0] { BeforeTotal(a[1..], b[1..]); } else { LeTotal(a[0], b[0]); }
    }
  }

  lemma {:induction false} BeforeTransitive(a: Key, b: Key, c: Key)
    requires Before(a, b) && Before(b, c)
    ensures Before(a, c)
  {
    if a != [] {
      if a[0] == b[0] && b[0] == c[0] {
        BeforeTransitive(a[1..], b[1..], c[1..]);
      } else if a[0] != b[0] && b[0] != c[0] {
        LeTransitive(a[0], b[0], c[0]);
        if a[0] == c[0] { LeAntisymmetric(a[0], b[0]); }
      }
    }
  }

  lemma {:induction false} BeforeAntisymmetric(a: Key, b: Key)
    requires Before(a, b) && Before(b, a)
    ensures a == b
  {
    if a != [] {
      if a[0] != b[0] { LeAntisymmetric(a[0], b[0]); }
      BeforeAntisymmetric(a[1..], b[1..]);
      assert a == [a[0]] + a[1..] && b == [b[0]] + b[1..];
    }
  }

  /** Sorting by a key: the items' order is the order of their keys. */
  ghost predicate SortedBy<T>(key: T -> Key, s: seq<T>) {
    forall i, j :: 0 <= i < j < |s| ==> Before(key(s[i]), key(s[j]))
  }

  predicate DistinctBy<T>(key: T -> Key, s: seq<T>) {
    forall i, j :: 0 <= i < j < |s| ==> key(s[i]) != key(s[j])
  }

  function Insert<T>(key: T -> Key, x: T, s: seq<T>): seq<T> {
    if s == [] then [x]
    else if Before(key(x), key(s[0])) then [x] + s
    else [s[0]] + Insert(key, x, s[1..])
  }

  function Sort<T>(key: T -> Key, s: seq<T>): seq<T> {
    if s == [] then [] else Insert(key, s[0], Sort(key, s[1..]))
  }

  lemma {:induction false} InsertKeeps<T>(key: T -> Key, x: T, s: seq<T>)
    ensures multiset(Insert(key, x, s)) == multiset{x} + multiset(s)
    ensures SortedBy(key, s) ==> SortedBy(key, Insert(key, x, s))
  {
    if s != [] {
      assert s == [s[0]] + s[1..];
      if Before(key(x), key(s[0])) {
        if SortedBy(key, s) {
          forall j | 0 <= j < |s| ensures Before(key(x),
                                                 key(s[j])) { if j > 0 { BeforeTransitive(key(x), key(s[0]),
                                                     key(s[j])); } }
        }
      } else {
        InsertKeeps(key, x, s[1..]);
        if SortedBy(key, s) { InsertAfterHead(key, x, s); }
      }
    }
  }

  lemma InsertAfterHead<T>(key: T -> Key, x: T, s: seq<T>)
    requires s != [] && SortedBy(key, s) && !Before(key(x), key(s[0]))
    requires multiset(Insert(key, x, s[1..])) == multiset{x} + multiset(s[1..]) && SortedBy(key, Insert(key, x, s[1..]))
    ensures SortedBy(key, [s[0]] + Insert(key, x, s[1..]))
  {
    var rest := Insert(key, x, s[1..]);
    BeforeTotal(key(x), key(s[0]));
    forall j | 0 <= j < |rest| ensures Before(key(s[0]), key(rest[j])) {
      assert rest[j] in multiset(rest);
      if rest[j] != x {
        assert rest[j] in s[1..];
      }
    }
  }

  lemma {:induction false} SortIsSorted<T>(key: T -> Key, s: seq<T>)
    ensures multiset(Sort(key, s)) == multiset(s) && SortedBy(key, Sort(key, s)) && |Sort(key, s)| == |s|
  {
    hide SortedBy, Insert;
    if s == [] {
      NoneSorted(key, s);
    } else {
      SortIsSorted(key, s[1..]);
      InsertKeeps(key, s[0], Sort(key, s[1..]));
      assert s == [s[0]] + s[1..];
    }
    assert |multiset(Sort(key, s))| == |Sort(key, s)| && |multiset(s)| == |s|;
  }

  lemma NoneSorted<T>(key: T -> Key, s: seq<T>)
    requires s == []
    ensures SortedBy(key, s)
  {
  }

  lemma HeadsAgree<T>(key: T -> Key, a: seq<T>, b: seq<T>)
    requires multiset(a) == multiset(b) && SortedBy(key, a) && SortedBy(key, b) && DistinctBy(key, a)
    requires a != [] && b != []
    ensures a[0] == b[0]
  {
    assert a[0] in multiset(b) && b[0] in multiset(a);
    var i :| 0 <= i < |a| && a[i] == b[0];
    var j :| 0 <= j < |b| && b[j] == a[0];
    if i != 0 && j != 0 { BeforeAntisymmetric(key(a[0]), key(b[0])); }
  }

  lemma WithoutHead<T>(s: seq<T>)
    requires s != []
    ensures multiset(s[1..]) == multiset(s) - multiset{s[0]} && s == [s[0]] + s[1..]
  {
    assert s == [s[0]] + s[1..];
  }

  /** Two sorted arrangements of the same items with distinct keys are the same. */
  lemma {:induction false} SortedIsUnique<T>(key: T -> Key, a: seq<T>, b: seq<T>)
    requires multiset(a) == multiset(b) && SortedBy(key, a) && SortedBy(key, b) && DistinctBy(key, a)
    ensures a == b
  {
    assert |multiset(a)| == |a| && |multiset(b)| == |b|;
    if a != [] {
      HeadsAgree(key, a, b);
      WithoutHead(a);
      WithoutHead(b);
      SortedIsUnique(key, a[1..], b[1..]);
    }
  }

  /** So the result of sorting depends only on which items there are. */
  lemma SortForgetsOrder<T>(key: T -> Key, a: seq<T>, b: seq<T>)
    requires multiset(a) == multiset(b) && DistinctBy(key, a)
    ensures Sort(key, a) == Sort(key, b)
  {
    SortIsSorted(key, a);
    SortIsSorted(key, b);
    DistinctIsOrderless(key, a, Sort(key, a));
    SortedIsUnique(key, Sort(key, a), Sort(key, b));
  }

  lemma {:induction false} DistinctIsOrderless<T>(key: T -> Key, a: seq<T>, b: seq<T>)
    requires multiset(a) == multiset(b) && DistinctBy(key, a)
    ensures DistinctBy(key, b)
  {
    forall i, j | 0 <= i < j < |b| ensures key(b[i]) != key(b[j]) {
      assert b[i] in multiset(a) && b[j] in multiset(a);
      if b[i] == b[j] {
        assert multiset(a)[b[i]] >= 2 by { CountTwice(b, i, j); }
        OnceOnly(key, a, b[i]);
      }
    }
  }

  lemma CountTwice<T>(s: seq<T>, i: nat, j: nat)
    requires i < j < |s| && s[i] == s[j]
    ensures multiset(s)[s[i]] >= 2
  {
    assert s == s[..j] + s[j..];
    assert multiset(s) == multiset(s[..j]) + multiset(s[j..]);
    assert s[..j][i] == s[i] && s[j..][0] == s[i];
  }

  lemma {:induction false} OnceOnly<T>(key: T -> Key, s: seq<T>, x: T)
    requires DistinctBy(key, s)
    ensures multiset(s)[x] <= 1
  {
    if s != [] {
      OnceOnly(key, s[1..], x);
      assert s == [s[0]] + s[1..];
      forall j | 0 <= j < |s| - 1 ensures s[1..][j] != s[0] {
        assert key(s[0]) != key(s[j + 1]);
      }
    }
  }
}
