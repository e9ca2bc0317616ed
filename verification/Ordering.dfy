/** Sorting by a key: the comparators of the scoring code compare a fixed list of numbers one after another. */
module Ordering {
  type Key = seq<int>

  /** `a` sorts strictly before `b`. */
  predicate Less(a: Key, b: Key) {
    if a == [] || b == [] then a == [] && b != []
    else a[0] < b[0] || (a[0] == b[0] && Less(a[1..], b[1..]))
  }

  lemma {:induction false} LessTrans(a: Key, b: Key, c: Key)
    requires Less(a, b) && Less(b, c)
    ensures Less(a, c)
  {
    if a != [] && a[0] == b[0] && b[0] == c[0] {
      LessTrans(a[1..], b[1..], c[1..]);
    }
  }

  lemma {:induction false} LessIrreflexive(a: Key)
    ensures !Less(a, a)
  {
    if a != [] {
      LessIrreflexive(a[1..]);
    }
  }

  lemma {:induction false} LessTotal(a: Key, b: Key)
    ensures Less(a, b) || Less(b, a) || a == b
  {
    if a != [] && b != [] && a[0] == b[0] {
      LessTotal(a[1..], b[1..]);
      if a[1..] == b[1..] {
        assert a == [a[0]] + a[1..];
        assert b == [b[0]] + b[1..];
      }
    }
  }

  lemma LessAsym(a: Key, b: Key)
    requires Less(a, b)
    ensures !Less(b, a)
  {
    if Less(b, a) {
      LessTrans(a, b, a);
      LessIrreflexive(a);
    }
  }

  /** Not out of order: what a stable sort leaves between neighbours. */
  ghost predicate Sorted<T>(s: seq<T>, key: T -> Key) {
    forall i, j | 0 <= i < j < |s| :: !Less(key(s[j]), key(s[i]))
  }

  function InsertBy<T>(x: T, s: seq<T>, key: T -> Key): (r: seq<T>)
    ensures multiset(r) == multiset(s) + multiset{x}
    ensures |r| == |s| + 1
  {
    if s == [] then [x]
    else if !Less(key(x), key(s[|s| - 1])) then s + [x]
    else
      assert s == s[..|s| - 1] + [s[|s| - 1]];
      InsertBy(x, s[..|s| - 1], key) + [s[|s| - 1]]
  }

  /** `toSorted`. */
  function SortBy<T>(s: seq<T>, key: T -> Key): (r: seq<T>)
    ensures multiset(r) == multiset(s)
    ensures |r| == |s|
  {
    if s == [] then []
    else
      assert s == s[..|s| - 1] + [s[|s| - 1]];
      InsertBy(s[|s| - 1], SortBy(s[..|s| - 1], key), key)
  }

  lemma InMultiset<T>(s: seq<T>, x: T)
    ensures x in s <==> x in multiset(s)
  {
  }

  lemma {:induction false} InsertKeepsSorted<T>(x: T, s: seq<T>, key: T -> Key)
    requires Sorted(s, key)
    ensures Sorted(InsertBy(x, s, key), key)
  {
    if s != [] {
      var last := s[|s| - 1];
      if !Less(key(x), key(last)) {
        forall i | 0 <= i < |s|
          ensures !Less(key(x), key(s[i]))
        {
          LessIrreflexive(key(last));
          NotLessTrans(key(x), key(last), key(s[i]));
        }
      } else {
        var front := s[..|s| - 1];
        var inner := InsertBy(x, front, key);
        InsertKeepsSorted(x, front, key);
        forall i | 0 <= i < |inner|
          ensures !Less(key(last), key(inner[i]))
        {
          InMultiset(inner, inner[i]);
          InMultiset(front, inner[i]);
          if inner[i] == x {
            LessAsym(key(x), key(last));
          } else {
            assert inner[i] in front;
          }
        }
      }
    }
  }

  lemma NotLessTrans(a: Key, b: Key, c: Key)
    requires !Less(a, b)
    requires !Less(b, c)
    ensures !Less(a, c)
  {
    if Less(a, c) {
      LessTotal(a, b);
      LessTotal(b, c);
      if a != b && b != c {
        LessTrans(c, b, a);
        LessAsym(c, a);
      }
    }
  }

  lemma {:induction false} SortIsSorted<T>(s: seq<T>, key: T -> Key)
    ensures Sorted(SortBy(s, key), key)
  {
    if s != [] {
      SortIsSorted(s[..|s| - 1], key);
      InsertKeepsSorted(s[|s| - 1], SortBy(s[..|s| - 1], key), key);
    }
  }

  /** Different elements have different keys. */
  ghost predicate KeysTellApart<T>(s: seq<T>, key: T -> Key) {
    forall x, y | x in s && y in s && key(x) == key(y) :: x == y
  }

  lemma LastIsGreatest<T>(s: seq<T>, x: T, key: T -> Key)
    requires Sorted(s, key) && x in s
    ensures !Less(key(s[|s| - 1]), key(x))
  {
    var i :| 0 <= i < |s| && s[i] == x;
    LessIrreflexive(key(x));
  }

  lemma FrontMultiset<T>(s: seq<T>)
    requires s != []
    ensures multiset(s[..|s| - 1]) == multiset(s) - multiset{s[|s| - 1]}
  {
    assert s == s[..|s| - 1] + [s[|s| - 1]];
  }

  lemma SameLength<T>(a: seq<T>, b: seq<T>)
    requires multiset(a) == multiset(b)
    ensures |a| == |b|
  {
    assert |multiset(a)| == |a| && |multiset(b)| == |b|;
  }

  lemma LastsAgree<T>(a: seq<T>, b: seq<T>, key: T -> Key)
    requires multiset(a) == multiset(b) && a != [] && b != []
    requires Sorted(a, key) && Sorted(b, key) && KeysTellApart(a, key)
    ensures a[|a| - 1] == b[|b| - 1]
  {
    var x, y := a[|a| - 1], b[|b| - 1];
    InMultiset(a, y);
    InMultiset(b, y);
    InMultiset(a, x);
    InMultiset(b, x);
    LastIsGreatest(a, y, key);
    LastIsGreatest(b, x, key);
    LessTotal(key(x), key(y));
  }

  lemma FrontInherits<T>(s: seq<T>, key: T -> Key)
    requires s != [] && Sorted(s, key)
    ensures Sorted(s[..|s| - 1], key)
    ensures KeysTellApart(s, key) ==> KeysTellApart(s[..|s| - 1], key)
  {
    assert forall x | x in s[..|s| - 1] :: x in s;
  }

  lemma SplitLast<T>(s: seq<T>)
    requires s != []
    ensures s == s[..|s| - 1] + [s[|s| - 1]]
  {
  }

  /** There is only one way to sort when keys tell elements apart. */
  lemma {:induction false} SortedIsUnique<T>(a: seq<T>, b: seq<T>, key: T -> Key)
    requires multiset(a) == multiset(b)
    requires Sorted(a, key) && Sorted(b, key) && KeysTellApart(a, key)
    ensures a == b
    decreases |a|
  {
    SameLength(a, b);
    if a != [] {
      LastsAgree(a, b, key);
      FrontMultiset(a);
      FrontMultiset(b);
      FrontInherits(a, key);
      FrontInherits(b, key);
      SortedIsUnique(a[..|a| - 1], b[..|b| - 1], key);
      SplitLast(a);
      SplitLast(b);
    }
  }

  lemma SameMembers<T>(a: seq<T>, b: seq<T>)
    requires multiset(a) == multiset(b)
    ensures forall x :: x in a <==> x in b
  {
    forall x
      ensures x in a <==> x in b
    {
      InMultiset(a, x);
      InMultiset(b, x);
    }
  }

  /** The sort does not see the order it is given. */
  lemma SortIgnoresOrder<T>(a: seq<T>, b: seq<T>, key: T -> Key)
    requires multiset(a) == multiset(b) && KeysTellApart(a, key)
    ensures SortBy(a, key) == SortBy(b, key)
  {
    SortIsSorted(a, key);
    SortIsSorted(b, key);
    SameMembers(a, SortBy(a, key));
    assert KeysTellApart(SortBy(a, key), key);
    SortedIsUnique(SortBy(a, key), SortBy(b, key), key);
  }

  /** Sorting what is sorted changes nothing. */
  lemma {:induction false} SortedStays<T>(s: seq<T>, key: T -> Key)
    requires Sorted(s, key)
    ensures SortBy(s, key) == s
  {
    if s != [] {
      var front, last := s[..|s| - 1], s[|s| - 1];
      SortedStays(front, key);
      SplitLast(s);
      assert front != [] ==> !Less(key(last), key(front[|front| - 1]));
    }
  }

  // ---- Filtering ----

  /** The elements that satisfy `f`, in order. */
  function Filter<T>(s: seq<T>, f: T -> bool): (r: seq<T>)
    ensures |r| <= |s|
  {
    if s == [] then []
    else
      assert s == s[..|s| - 1] + [s[|s| - 1]];
      Filter(s[..|s| - 1], f) + (if f(s[|s| - 1]) then [s[|s| - 1]] else [])
  }

  lemma {:induction false} FilterMembers<T>(s: seq<T>, f: T -> bool)
    ensures forall x | x in Filter(s, f) :: x in s && f(x)
    ensures forall x | x in s && f(x) :: x in Filter(s, f)
  {
    if s != [] {
      assert s == s[..|s| - 1] + [s[|s| - 1]];
      FilterMembers(s[..|s| - 1], f);
    }
  }

  lemma FilterAppend<T>(s: seq<T>, x: T, f: T -> bool)
    ensures Filter(s + [x], f) == Filter(s, f) + (if f(x) then [x] else [])
  {
    assert (s + [x])[..|s|] == s;
  }

  lemma {:induction false} FilterConcat<T>(s: seq<T>, t: seq<T>, f: T -> bool)
    ensures Filter(s + t, f) == Filter(s, f) + Filter(t, f)
  {
    if t == [] {
      assert s + t == s;
    } else {
      var front, last := t[..|t| - 1], t[|t| - 1];
      assert t == front + [last];
      assert s + t == (s + front) + [last];
      FilterConcat(s, front, f);
      FilterAppend(s + front, last, f);
      FilterAppend(front, last, f);
    }
  }

  /** The last element of a sequence found again in a rearrangement of it. */
  lemma SplitAtLast<T>(a: seq<T>, b: seq<T>) returns (left: seq<T>, right: seq<T>)
    requires multiset(a) == multiset(b) && a != []
    ensures b == left + [a[|a| - 1]] + right
    ensures multiset(a[..|a| - 1]) == multiset(left + right)
  {
    var last := a[|a| - 1];
    FrontMultiset(a);
    InMultiset(a, last);
    InMultiset(b, last);
    var i :| 0 <= i < |b| && b[i] == last;
    left, right := b[..i], b[i + 1..];
    assert b == left + [last] + right;
    assert multiset(b) == multiset(left + right) + multiset{last};
    assert multiset(left + right) == multiset(b) - multiset{last};
  }

  lemma FilterAround<T>(left: seq<T>, x: T, right: seq<T>, f: T -> bool)
    ensures multiset(Filter(left + [x] + right, f))
            == multiset(Filter(left + right, f)) + (if f(x) then multiset{x} else multiset{})
  {
    FilterConcat(left, right, f);
    FilterConcat(left + [x], right, f);
    FilterAppend(left, x, f);
  }

  lemma FilterBack<T>(s: seq<T>, f: T -> bool)
    requires s != []
    ensures multiset(Filter(s, f))
            == multiset(Filter(s[..|s| - 1], f)) + (if f(s[|s| - 1]) then multiset{s[|s| - 1]} else multiset{})
  {
  }

  lemma {:induction false} FilterIgnoresOrder<T>(a: seq<T>, b: seq<T>, f: T -> bool)
    requires multiset(a) == multiset(b)
    ensures multiset(Filter(a, f)) == multiset(Filter(b, f))
    decreases |a|
  {
    if a == [] {
      assert |multiset(b)| == 0;
    } else {
      var front, last := a[..|a| - 1], a[|a| - 1];
      var left, right := SplitAtLast(a, b);
      FilterIgnoresOrder(front, left + right, f);
      FilterAround(left, last, right, f);
      FilterBack(a, f);
    }
  }

  lemma {:induction false} FilterAll<T>(s: seq<T>, f: T -> bool)
    requires forall x | x in s :: f(x)
    ensures Filter(s, f) == s
  {
    if s != [] {
      assert s == s[..|s| - 1] + [s[|s| - 1]];
      FilterAll(s[..|s| - 1], f);
    }
  }

  lemma FilterNone<T>(s: seq<T>, f: T -> bool)
    requires forall x | x in s :: !f(x)
    ensures Filter(s, f) == []
  {
    FilterMembers(s, f);
    if Filter(s, f) != [] {
      assert Filter(s, f)[0] in s;
    }
  }

  lemma {:induction false} FilterAgrees<T>(s: seq<T>, f: T -> bool, g: T -> bool)
    requires forall x | x in s :: f(x) == g(x)
    ensures Filter(s, f) == Filter(s, g)
  {
    if s != [] {
      assert s[|s| - 1] in s;
      assert forall x | x in s[..|s| - 1] :: x in s;
      FilterAgrees(s[..|s| - 1], f, g);
    }
  }

  lemma {:induction false} FilterTwice<T>(s: seq<T>, f: T -> bool, g: T -> bool, both: T -> bool)
    requires forall x | x in s :: both(x) == (f(x) && g(x))
    ensures Filter(Filter(s, f), g) == Filter(s, both)
  {
    if s != [] {
      var front, last := s[..|s| - 1], s[|s| - 1];
      assert s == front + [last];
      assert last in s;
      assert forall x | x in front :: x in s;
      FilterTwice(front, f, g, both);
      FilterAppend(front, last, f);
      FilterAppend(front, last, both);
      if f(last) {
        FilterAppend(Filter(front, f), last, g);
      } else {
        assert Filter(s, f) == Filter(front, f);
      }
    }
  }

  /** Filtering a sorted sequence is sorting the filtered one. */
  lemma {:induction false} FilterKeepsSorted<T>(s: seq<T>, f: T -> bool, key: T -> Key)
    requires Sorted(s, key)
    ensures Sorted(Filter(s, f), key)
  {
    if s != [] {
      var front, last := s[..|s| - 1], s[|s| - 1];
      FilterKeepsSorted(front, f, key);
      assert s == front + [last];
      FilterAppend(front, last, f);
      var kept := Filter(front, f);
      FilterMembers(front, f);
      forall i | 0 <= i < |kept|
        ensures !Less(key(last), key(kept[i]))
      {
        assert kept[i] in front;
      }
    }
  }

  function Map<T, U>(s: seq<T>, f: T -> U): (r: seq<U>)
    ensures |r| == |s|
  {
    seq(|s|, i requires 0 <= i < |s| => f(s[i]))
  }

  lemma MapAt<T, U>(s: seq<T>, f: T -> U)
    ensures forall i | 0 <= i < |s| :: Map(s, f)[i] == f(s[i])
  {
  }

  lemma MapAppend<T, U>(s: seq<T>, x: T, f: T -> U)
    ensures Map(s + [x], f) == Map(s, f) + [f(x)]
  {
  }
}
