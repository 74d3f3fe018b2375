/**
 * The order in which sort.Strings puts client names (main.go:141): Go
 * compares strings byte by byte, and on code points that is the order below.
 * sort.Strings itself is modelled by an insertion sort with the same result.
 */
module Lexicographic {

  /** a < b: a proper prefix of b, or smaller at the first position where they differ. */
  predicate Less(a: string, b: string)
  {
    if |a| == 0 then |b| > 0
    else if |b| == 0 then false
    else a[0] < b[0] || (a[0] == b[0] && Less(a[1..], b[1..]))
  }

  lemma {:induction false} LessIrreflexive(a: string)
    ensures !Less(a, a)
  {
    if |a| > 0 {
      LessIrreflexive(a[1..]);
    }
  }

  lemma {:induction false} LessTransitive(a: string, b: string, c: string)
    requires Less(a, b) && Less(b, c)
    ensures Less(a, c)
  {
    if |a| > 0 && a[0] == b[0] && b[0] == c[0] {
      LessTransitive(a[1..], b[1..], c[1..]);
    }
  }

  lemma {:induction false} LessTotal(a: string, b: string)
    requires a != b
    ensures Less(a, b) || Less(b, a)
  {
    if |a| > 0 && |b| > 0 && a[0] == b[0] {
      assert a == [a[0]] + a[1..] && b == [b[0]] + b[1..];
      LessTotal(a[1..], b[1..]);
    }
  }

  lemma LessAsymmetric(a: string, b: string)
    requires Less(a, b)
    ensures !Less(b, a)
  {
    if Less(b, a) {
      LessTransitive(a, b, a);
      LessIrreflexive(a);
    }
  }

  /** Ascending order, equal names allowed next to each other. */
  predicate Sorted(s: seq<string>)
  {
    forall i, j :: 0 <= i < j < |s| ==> !Less(s[j], s[i])
  }

  /** Ascending order without repetitions. */
  predicate StrictlySorted(s: seq<string>)
  {
    forall i, j :: 0 <= i < j < |s| ==> Less(s[i], s[j])
  }

  function Insert(x: string, s: seq<string>): seq<string>
  {
    if |s| == 0 then [x]
    else if !Less(s[0], x) then [x] + s
    else [s[0]] + Insert(x, s[1..])
  }

  /** Putting x in front keeps the order when x is no larger than the first name. */
  lemma InsertInFront(x: string, s: seq<string>)
    requires Sorted(s) && |s| > 0 && !Less(s[0], x)
    ensures Sorted([x] + s)
  {
    var r := [x] + s;
    forall j | 0 < j < |r| ensures !Less(r[j], x) {
      if Less(r[j], x) && r[j] != s[0] {
        assert r[j] == s[j - 1];
        LessTotal(r[j], s[0]);
        LessTransitive(s[0], r[j], x);
      }
    }
  }

  /** Keeping the first name in front keeps the order when the tail is a sorted
      permutation of the old tail plus a larger x. */
  lemma InsertBehind(x: string, s: seq<string>, tail: seq<string>)
    requires Sorted(s) && |s| > 0 && Less(s[0], x)
    requires Sorted(tail) && multiset(tail) == multiset(s[1..]) + multiset{x}
    ensures Sorted([s[0]] + tail)
  {
    var r := [s[0]] + tail;
    forall j | 0 <= j < |tail| ensures !Less(tail[j], s[0]) {
      assert tail[j] in multiset(tail);
      if tail[j] == x {
        LessAsymmetric(s[0], x);
      } else {
        assert tail[j] in multiset(s[1..]);
        var k :| 0 <= k < |s[1..]| && s[1..][k] == tail[j];
        assert s[k + 1] == tail[j];
      }
    }
    forall i, j | 0 <= i < j < |r| ensures !Less(r[j], r[i]) {
      if i > 0 {
        assert r[i] == tail[i - 1] && r[j] == tail[j - 1];
      } else {
        assert r[j] == tail[j - 1];
      }
    }
  }

  lemma {:induction false} InsertSorted(x: string, s: seq<string>)
    requires Sorted(s)
    ensures Sorted(Insert(x, s)) && multiset(Insert(x, s)) == multiset(s) + multiset{x}
  {
    if |s| == 0 {
      return;
    }
    assert s == [s[0]] + s[1..];
    if !Less(s[0], x) {
      InsertInFront(x, s);
    } else {
      InsertSorted(x, s[1..]);
      InsertBehind(x, s, Insert(x, s[1..]));
    }
  }

  /** sort.Strings, as an insertion sort: a sorted permutation of its input. */
  function SortStrings(s: seq<string>): (r: seq<string>)
    ensures Sorted(r) && multiset(r) == multiset(s)
  {
    if |s| == 0 then []
    else
      var rest := SortStrings(s[1..]);
      InsertSorted(s[0], rest);
      assert s == [s[0]] + s[1..];
      Insert(s[0], rest)
  }

  /** Sorting names without repetitions gives a strictly ascending list. */
  lemma SortedDistinct(r: seq<string>)
    requires Sorted(r)
    requires forall i, j :: 0 <= i < j < |r| ==> r[i] != r[j]
    ensures StrictlySorted(r)
  {
    forall i, j | 0 <= i < j < |r| ensures Less(r[i], r[j]) {
      LessTotal(r[i], r[j]);
    }
  }

  lemma SameElementsSameEmptiness(a: seq<string>, b: seq<string>)
    requires forall x :: x in a <==> x in b
    ensures |a| == 0 <==> |b| == 0
  {
    if |a| > 0 { assert a[0] in b; }
    if |b| > 0 { assert b[0] in a; }
  }

  /** There is only one strictly ascending list of a given set of names. */
  lemma {:induction false} StrictlySortedUnique(a: seq<string>, b: seq<string>)
    requires StrictlySorted(a) && StrictlySorted(b)
    requires forall x :: x in a <==> x in b
    ensures a == b
    decreases |a|
  {
    SameElementsSameEmptiness(a, b);
    if |a| == 0 {
      return;
    }
    if a[0] != b[0] {
      assert b[0] in a;
      var k :| 0 <= k < |a| && a[k] == b[0];
      assert a[0] in b;
      var m :| 0 <= m < |b| && b[m] == a[0];
      assert Less(a[0], b[0]) && Less(b[0], a[0]);
      LessAsymmetric(a[0], b[0]);
    }
    forall x ensures x in a[1..] <==> x in b[1..] {
      if x in a[1..] {
        var k :| 0 <= k < |a[1..]| && a[1..][k] == x;
        assert Less(a[0], x);
        LessIrreflexive(x);
        assert x in b;
      }
      if x in b[1..] {
        var k :| 0 <= k < |b[1..]| && b[1..][k] == x;
        assert Less(b[0], x);
        LessIrreflexive(x);
        assert x in a;
      }
    }
    StrictlySortedUnique(a[1..], b[1..]);
    assert a == [a[0]] + a[1..] && b == [b[0]] + b[1..];
  }

  /** Some listing of a set of names without repetitions, in no particular order. */
  ghost function Enumerate(names: set<string>): (r: seq<string>)
    ensures forall x :: x in r <==> x in names
    ensures forall i, j :: 0 <= i < j < |r| ==> r[i] != r[j]
    decreases names
  {
    if names == {} then []
    else
      var x :| x in names;
      [x] + Enumerate(names - {x})
  }

  /** The names of a set in ascending order: what sort.Strings leaves in `names`. */
  ghost function SortedNames(names: set<string>): (r: seq<string>)
    ensures StrictlySorted(r) && forall x :: x in r <==> x in names
  {
    var e := Enumerate(names);
    var r := SortStrings(e);
    assert forall x :: x in r <==> x in multiset(r);
    assert forall x :: x in e <==> x in multiset(e);
    assert forall i, j :: 0 <= i < j < |r| ==> r[i] != r[j] by {
      DistinctMultiset(e);
      MultisetDistinct(r);
    }
    SortedDistinct(r);
    r
  }

  lemma {:induction false} DistinctMultiset(s: seq<string>)
    requires forall i, j :: 0 <= i < j < |s| ==> s[i] != s[j]
    ensures forall x :: multiset(s)[x] <= 1
  {
    if |s| > 0 {
      DistinctMultiset(s[1..]);
      assert s == [s[0]] + s[1..];
      assert s[0] !in s[1..];
    }
  }

  lemma {:induction false} MultisetDistinct(s: seq<string>)
    requires forall x :: multiset(s)[x] <= 1
    ensures forall i, j :: 0 <= i < j < |s| ==> s[i] != s[j]
  {
    if |s| > 0 {
      assert s == [s[0]] + s[1..];
      forall x ensures multiset(s[1..])[x] <= 1 {
        assert multiset(s)[x] == multiset([s[0]])[x] + multiset(s[1..])[x];
      }
      MultisetDistinct(s[1..]);
      assert multiset(s)[s[0]] == 1 + multiset(s[1..])[s[0]];
      assert s[0] !in s[1..];
      forall i, j | 0 <= i < j < |s| ensures s[i] != s[j] {
        if i == 0 {
          assert s[j] in s[1..];
        } else {
          assert s[i] == s[1..][i - 1] && s[j] == s[1..][j - 1];
        }
      }
    }
  }

  /**
   * Sorting any listing of a set of names without repetitions gives the same
   * list: the order in which Go's map range yields the client names does not
   * change the end-of-day output.
   */
  lemma SortAnyListing(names: seq<string>, keys: set<string>)
    requires forall x :: x in names <==> x in keys
    requires forall i, j :: 0 <= i < j < |names| ==> names[i] != names[j]
    ensures SortStrings(names) == SortedNames(keys)
  {
    var r := SortStrings(names);
    assert forall x :: x in r <==> x in multiset(r);
    assert forall x :: x in names <==> x in multiset(names);
    DistinctMultiset(names);
    MultisetDistinct(r);
    SortedDistinct(r);
    StrictlySortedUnique(r, SortedNames(keys));
  }
}
