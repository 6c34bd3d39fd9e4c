/**
 * The add-on identity used by ADD_TO_CART (context/orders-context.js:27-32):
 * each add-on is reduced to its key `a.id || a.name`, both key lists are
 * sorted, and the sorted lists are compared. This module proves that the
 * comparison is exactly equality of the key multisets.
 */
module AddonKeys {
  import opened CartModel

  /** `a.id || a.name`: an empty id falls back to the name. */
  function Key(a: Addon): string {
    if a.id != "" then a.id else a.name
  }

  function Keys(addons: seq<Addon>): (r: seq<string>)
    ensures |r| == |addons|
    ensures forall i :: 0 <= i < |addons| ==> r[i] == Key(addons[i])
  {
    if addons == [] then [] else [Key(addons[0])] + Keys(addons[1..])
  }

  lemma {:induction false} KeysAppend(a: seq<Addon>, b: seq<Addon>)
    ensures Keys(a + b) == Keys(a) + Keys(b)
  {
    assert |Keys(a + b)| == |Keys(a) + Keys(b)|;
    forall i | 0 <= i < |a + b| ensures Keys(a + b)[i] == (Keys(a) + Keys(b))[i] {
    }
  }

  /** Lexicographic order on strings, by character code. */
  predicate StrLe(a: string, b: string) {
    if a == [] then true
    else if b == [] then false
    else if a[0] == b[0] then StrLe(a[1..], b[1..])
    else a[0] < b[0]
  }

  lemma {:induction false} StrLeReflexive(a: string)
    ensures StrLe(a, a)
  {
    if a != [] {
      StrLeReflexive(a[1..]);
    }
  }

  lemma {:induction false} StrLeTotal(a: string, b: string)
    ensures StrLe(a, b) || StrLe(b, a)
  {
    if a != [] && b != [] && a[0] == b[0] {
      StrLeTotal(a[1..], b[1..]);
    }
  }

  lemma {:induction false} StrLeAntisymmetric(a: string, b: string)
    requires StrLe(a, b) && StrLe(b, a)
    ensures a == b
  {
    if a != [] && b != [] {
      StrLeAntisymmetric(a[1..], b[1..]);
      assert a == [a[0]] + a[1..] && b == [b[0]] + b[1..];
    }
  }

  lemma {:induction false} StrLeTransitive(a: string, b: string, c: string)
    requires StrLe(a, b) && StrLe(b, c)
    ensures StrLe(a, c)
  {
    if a != [] && b != [] && c != [] && a[0] == b[0] && b[0] == c[0] {
      StrLeTransitive(a[1..], b[1..], c[1..]);
    }
  }

  predicate Sorted(s: seq<string>) {
    forall i, j :: 0 <= i < j < |s| ==> StrLe(s[i], s[j])
  }

  /** Inserts `x` before the first element it does not exceed. */
  function Insert(x: string, s: seq<string>): seq<string> {
    if s == [] then [x]
    else if StrLe(x, s[0]) then [x] + s
    else [s[0]] + Insert(x, s[1..])
  }

  /** Insertion sort: stands for the array `sort()` of the source. */
  function Sort(s: seq<string>): seq<string> {
    if s == [] then [] else Insert(s[0], Sort(s[1..]))
  }

  /** Inserting into a sorted sequence adds one element and keeps it sorted. */
  lemma {:induction false} InsertSorts(x: string, s: seq<string>)
    requires Sorted(s)
    ensures multiset(Insert(x, s)) == multiset(s) + multiset{x}
    ensures Sorted(Insert(x, s))
  {
    InsertPermutes(x, s);
    if s == [] {
    } else if StrLe(x, s[0]) {
      forall j | 0 <= j < |s| ensures StrLe(x, s[j]) {
        if j > 0 { StrLeTransitive(x, s[0], s[j]); }
      }
      ConsSorted(x, s);
    } else {
      SortedTail(s);
      InsertSorts(x, s[1..]);
      InsertAfterHeadBound(x, s);
      ConsSorted(s[0], Insert(x, s[1..]));
    }
  }

  lemma {:induction false} InsertPermutes(x: string, s: seq<string>)
    ensures multiset(Insert(x, s)) == multiset(s) + multiset{x}
  {
    if s != [] && !StrLe(x, s[0]) {
      InsertPermutes(x, s[1..]);
      assert s == [s[0]] + s[1..];
    }
  }

  /** Every element of `Insert(x, s[1..])` is at least `s[0]` when `x` is. */
  lemma InsertAfterHeadBound(x: string, s: seq<string>)
    requires Sorted(s) && s != [] && !StrLe(x, s[0])
    ensures forall j :: 0 <= j < |Insert(x, s[1..])| ==> StrLe(s[0], Insert(x, s[1..])[j])
  {
    var rest := Insert(x, s[1..]);
    InsertPermutes(x, s[1..]);
    StrLeTotal(x, s[0]);
    forall j | 0 <= j < |rest| ensures StrLe(s[0], rest[j]) {
      assert rest[j] in multiset(rest);
      if rest[j] != x {
        assert rest[j] in multiset(s[1..]);
        var k :| 0 <= k < |s[1..]| && s[1..][k] == rest[j];
        assert s[k + 1] == rest[j];
      }
    }
  }

  /** A sorted sequence stays sorted under a head that is at most all of it. */
  lemma ConsSorted(h: string, rest: seq<string>)
    requires Sorted(rest)
    requires forall j :: 0 <= j < |rest| ==> StrLe(h, rest[j])
    ensures Sorted([h] + rest)
  {
    var s := [h] + rest;
    forall i, j | 0 <= i < j < |s| ensures StrLe(s[i], s[j]) {
      assert s[j] == rest[j - 1];
      if i > 0 {
        assert s[i] == rest[i - 1];
      }
    }
  }

  /** Sorting yields a sorted permutation. */
  lemma {:induction false} SortSorts(s: seq<string>)
    ensures multiset(Sort(s)) == multiset(s)
    ensures Sorted(Sort(s))
  {
    if s != [] {
      assert s == [s[0]] + s[1..];
      SortSorts(s[1..]);
      InsertSorts(s[0], Sort(s[1..]));
    }
  }

  /** The head of a sorted sequence is at most any of its elements. */
  lemma SortedHeadIsLeast(s: seq<string>, x: string)
    requires Sorted(s) && x in multiset(s)
    ensures s != [] && StrLe(s[0], x)
  {
    var i :| 0 <= i < |s| && s[i] == x;
    if i == 0 {
      StrLeReflexive(x);
    }
  }

  lemma SortedTail(s: seq<string>)
    requires Sorted(s) && s != []
    ensures Sorted(s[1..])
  {
    forall i, j | 0 <= i < j < |s| - 1 ensures StrLe(s[1..][i], s[1..][j]) {
      assert s[1..][i] == s[i + 1] && s[1..][j] == s[j + 1];
    }
  }

  lemma MultisetTail(s: seq<string>)
    requires s != []
    ensures multiset(s[1..]) == multiset(s) - multiset{s[0]}
  {
    assert s == [s[0]] + s[1..];
  }

  /** A sorted arrangement of a multiset is unique. */
  lemma {:induction false} SortedUnique(s: seq<string>, t: seq<string>)
    requires Sorted(s) && Sorted(t) && multiset(s) == multiset(t)
    ensures s == t
    decreases |s|
  {
    if s == [] {
      assert |t| == |multiset(t)|;
    } else {
      SortedHeadsAgree(s, t);
      MultisetTail(s);
      MultisetTail(t);
      SortedTail(s);
      SortedTail(t);
      SortedUnique(s[1..], t[1..]);
      assert s == [s[0]] + s[1..] && t == [t[0]] + t[1..];
    }
  }

  lemma SortedHeadsAgree(s: seq<string>, t: seq<string>)
    requires Sorted(s) && Sorted(t) && multiset(s) == multiset(t) && s != []
    ensures t != [] && s[0] == t[0]
  {
    assert s[0] in multiset(s);
    SortedHeadIsLeast(t, s[0]);
    assert t[0] in multiset(t);
    SortedHeadIsLeast(s, t[0]);
    StrLeAntisymmetric(s[0], t[0]);
  }

  /**
   * The ADD_TO_CART add-on test: the sorted key lists of the two add-on
   * arrays are equal.
   */
  predicate SameAddons(a: seq<Addon>, b: seq<Addon>) {
    Sort(Keys(a)) == Sort(Keys(b))
  }

  /** Sorting then comparing is exactly multiset equality of the keys. */
  lemma SameAddonsIsMultisetEquality(a: seq<Addon>, b: seq<Addon>)
    ensures SameAddons(a, b) <==> multiset(Keys(a)) == multiset(Keys(b))
  {
    SortSorts(Keys(a));
    SortSorts(Keys(b));
    if multiset(Keys(a)) == multiset(Keys(b)) {
      SortedUnique(Sort(Keys(a)), Sort(Keys(b)));
    }
  }

  /** The order in which add-ons were chosen does not matter. */
  lemma SameAddonsIgnoresOrder(x: seq<Addon>, y: seq<Addon>)
    ensures SameAddons(x + y, y + x)
  {
    KeysAppend(x, y);
    KeysAppend(y, x);
    SameAddonsIsMultisetEquality(x + y, y + x);
  }

  /** Duplicated keys must match in number, not merely in presence. */
  lemma SameAddonsCountsDuplicates(a: Addon)
    ensures !SameAddons([a], [a, a])
  {
    SameAddonsIsMultisetEquality([a], [a, a]);
    assert multiset(Keys([a])) == multiset{Key(a)};
    assert multiset(Keys([a, a])) == multiset{Key(a), Key(a)};
  }

  /** An item without extras only matches a line without extras. */
  lemma SameAddonsEmpty(b: seq<Addon>)
    ensures SameAddons([], b) <==> b == []
  {
    SameAddonsIsMultisetEquality([], b);
    if b != [] {
      assert Keys(b)[0] in multiset(Keys(b));
    }
  }

  /** Add-ons are told apart by id when they have one, whatever their names and prices. */
  lemma SameAddonsById(i: string, n1: string, p1: int, n2: string, p2: int)
    requires i != ""
    ensures SameAddons([Addon(i, n1, p1)], [Addon(i, n2, p2)])
  {
  }

  /** With an empty id the name is the key. */
  lemma SameAddonsByNameFallback(n1: string, n2: string, p: int)
    requires n1 != n2
    ensures !SameAddons([Addon("", n1, p)], [Addon("", n2, p)])
  {
    SameAddonsIsMultisetEquality([Addon("", n1, p)], [Addon("", n2, p)]);
    assert multiset(Keys([Addon("", n1, p)])) == multiset{n1};
    assert multiset(Keys([Addon("", n2, p)])) == multiset{n2};
  }
}
