/**
 * Sequence operations shared by the routes and pages: `Array.prototype.filter`,
 * counting, and the newest-first ordering that `.sort({ createdAt: -1 })` gives.
 */
module Listing {

  /** `a` is obtained from `b` by deleting elements, keeping the order of the rest. */
  predicate IsSubsequence<T(==,!new)>(a: seq<T>, b: seq<T>)
    decreases |b|
  {
    a == [] || (b != [] && ((a[0] == b[0] && IsSubsequence(a[1..], b[1..])) || IsSubsequence(a, b[1..])))
  }

  lemma {:induction false} IsSubsequenceRefl<T(!new)>(a: seq<T>)
    ensures IsSubsequence(a, a)
    decreases |a|
  {
    if a != [] {
      IsSubsequenceRefl(a[1..]);
    }
  }

  /** Deleting elements twice is deleting elements once. */
  lemma {:induction false} IsSubsequenceTrans<T(!new)>(a: seq<T>, b: seq<T>, c: seq<T>)
    requires IsSubsequence(a, b) && IsSubsequence(b, c)
    ensures IsSubsequence(a, c)
    decreases |c|
  {
    if a != [] {
      if IsSubsequence(b, c[1..]) {
        IsSubsequenceTrans(a, b, c[1..]);
      } else if a[0] == b[0] && IsSubsequence(a[1..], b[1..]) {
        IsSubsequenceTrans(a[1..], b[1..], c[1..]);
      } else {
        IsSubsequenceTrans(a, b[1..], c[1..]);
      }
    }
  }

  /**
   * `s.filter(keep)`: exactly the elements that pass, in their original order, each
   * as many times as it occurs in `s`.
   */
  function Filter<T(==,!new)>(s: seq<T>, keep: T -> bool): (r: seq<T>)
    ensures |r| == Count(s, keep)
    ensures forall x :: x in r <==> x in s && keep(x)
    ensures IsSubsequence(r, s)
    decreases |s|
  {
    if s == [] then []
    else if keep(s[0]) then [s[0]] + Filter(s[1..], keep)
    else Filter(s[1..], keep)
  }

  /** A filter keeps every passing value exactly as often as it occurs, and no other value. */
  lemma {:induction false} FilterMultiplicity<T(!new)>(s: seq<T>, keep: T -> bool)
    ensures forall x :: multiset(Filter(s, keep))[x] == if keep(x) then multiset(s)[x] else 0
    decreases |s|
  {
    if s != [] {
      FilterMultiplicity(s[1..], keep);
      assert s == [s[0]] + s[1..];
      assert multiset(s) == multiset{s[0]} + multiset(s[1..]);
    }
  }

  /** Nothing is dropped by a filter every element passes. */
  lemma {:induction false} FilterAll<T(!new)>(s: seq<T>, keep: T -> bool)
    requires forall x :: x in s ==> keep(x)
    ensures Filter(s, keep) == s
    decreases |s|
  {
    if s != [] {
      assert s[0] in s;
      assert forall x :: x in s[1..] ==> x in s;
      FilterAll(s[1..], keep);
      assert s == [s[0]] + s[1..];
    }
  }

  /** Everything is dropped by a filter no element passes. */
  lemma {:induction false} FilterNone<T(!new)>(s: seq<T>, keep: T -> bool)
    requires forall x :: x in s ==> !keep(x)
    ensures Filter(s, keep) == []
    decreases |s|
  {
    if s != [] {
      assert s[0] in s;
      assert forall x :: x in s[1..] ==> x in s;
      FilterNone(s[1..], keep);
    }
  }

  /** Filtering twice is filtering once by both tests. */
  lemma {:induction false} FilterFilter<T(!new)>(s: seq<T>, p: T -> bool, q: T -> bool, both: T -> bool)
    requires forall x :: both(x) == (p(x) && q(x))
    ensures Filter(Filter(s, p), q) == Filter(s, both)
    decreases |s|
  {
    if s != [] {
      FilterFilter(s[1..], p, q, both);
      if p(s[0]) {
        var f := Filter(s, p);
        assert f == [s[0]] + Filter(s[1..], p);
        assert f[1..] == Filter(s[1..], p);
      }
    }
  }

  /** How many elements pass a test. */
  function Count<T(!new)>(s: seq<T>, test: T -> bool): (n: nat)
    ensures n <= |s|
    decreases |s|
  {
    if s == [] then 0
    else (if test(s[0]) then 1 else 0) + Count(s[1..], test)
  }

  lemma {:induction false} CountAppend<T(!new)>(a: seq<T>, b: seq<T>, test: T -> bool)
    ensures Count(a + b, test) == Count(a, test) + Count(b, test)
    decreases |a|
  {
    if a != [] {
      assert (a + b)[0] == a[0];
      assert (a + b)[1..] == a[1..] + b;
      CountAppend(a[1..], b, test);
    } else {
      assert a + b == b;
    }
  }

  /** No element occurs twice. */
  predicate Distinct<T(==)>(s: seq<T>)
  {
    forall i, j :: 0 <= i < j < |s| ==> s[i] != s[j]
  }

  /** The set of elements of a sequence. */
  function Elements<T(!new)>(s: seq<T>): set<T>
  {
    set x | x in s
  }

  /** A sequence has at most as many distinct elements as positions, and exactly as many when no element repeats. */
  lemma {:induction false} ElementsCard<T(!new)>(s: seq<T>)
    ensures |Elements(s)| <= |s|
    ensures |Elements(s)| == |s| <==> Distinct(s)
    decreases |s|
  {
    if s != [] {
      var rest := s[1..];
      ElementsCard(rest);
      assert s == [s[0]] + rest;
      assert Elements(s) == {s[0]} + Elements(rest);
      if s[0] in rest {
        assert Elements(s) == Elements(rest);
        var k :| 0 <= k < |rest| && rest[k] == s[0];
        assert s[k + 1] == s[0];
      } else {
        assert s[0] !in Elements(rest);
        assert |Elements(s)| == 1 + |Elements(rest)|;
        if Distinct(rest) {
          forall i, j | 0 <= i < j < |s| ensures s[i] != s[j] {
            if i == 0 {
              assert s[j] == rest[j - 1];
            } else {
              assert s[i] == rest[i - 1] && s[j] == rest[j - 1];
            }
          }
        }
        if Distinct(s) {
          forall i, j | 0 <= i < j < |rest| ensures rest[i] != rest[j] {
            assert rest[i] == s[i + 1] && rest[j] == s[j + 1];
          }
        }
      }
    }
  }

  /** A subset is no larger than its superset. */
  lemma {:induction false} SubsetCard<T>(a: set<T>, b: set<T>)
    requires a <= b
    ensures |a| <= |b|
    decreases |b|
  {
    if b != {} {
      var x :| x in b;
      if x in a {
        SubsetCard(a - {x}, b - {x});
      } else {
        SubsetCard(a, b - {x});
      }
    }
  }

  /** Ordered by `key`, largest (newest) first. */
  ghost predicate NewestFirst<T>(s: seq<T>, key: T -> int)
  {
    forall i, j :: 0 <= i < j < |s| ==> key(s[i]) >= key(s[j])
  }

  /** Places `x` before the first element that is not newer than it. */
  function Insert<T(==,!new)>(x: T, s: seq<T>, key: T -> int): (r: seq<T>)
    ensures multiset(r) == multiset(s) + multiset{x}
    ensures |r| == |s| + 1
    ensures s == [] ==> r == [x]
    ensures s != [] ==> r[0] == x || r[0] == s[0]
    decreases |s|
  {
    if s == [] then [x]
    else if key(x) >= key(s[0]) then [x] + s
    else
      assert s == [s[0]] + s[1..];
      [s[0]] + Insert(x, s[1..], key)
  }

  lemma {:induction false} InsertKeepsOrder<T(!new)>(x: T, s: seq<T>, key: T -> int)
    requires NewestFirst(s, key)
    ensures NewestFirst(Insert(x, s, key), key)
    decreases |s|
  {
    if s != [] && key(x) < key(s[0]) {
      var rest := Insert(x, s[1..], key);
      InsertKeepsOrder(x, s[1..], key);
      var r := [s[0]] + rest;
      assert Insert(x, s, key) == r;
      assert key(s[0]) >= key(rest[0]);
      forall i, j | 0 <= i < j < |r| ensures key(r[i]) >= key(r[j]) {
        if i > 0 {
          assert r[i] == rest[i - 1] && r[j] == rest[j - 1];
        } else {
          assert r[j] == rest[j - 1];
          assert key(rest[0]) >= key(rest[j - 1]);
        }
      }
    }
  }

  /** The listing `.sort({ createdAt: -1 })` returns: the same documents, newest first. */
  function SortNewestFirst<T(==,!new)>(s: seq<T>, key: T -> int): (r: seq<T>)
    ensures NewestFirst(r, key)
    ensures multiset(r) == multiset(s)
    ensures |r| == |s|
    decreases |s|
  {
    if s == [] then []
    else
      var rest := SortNewestFirst(s[1..], key);
      InsertKeepsOrder(s[0], rest, key);
      assert s == [s[0]] + s[1..];
      Insert(s[0], rest, key)
  }
}
