/** The order `ListTasks` promises: most recent status first, undated tasks last,
    ties broken by id (A2A specification, section 3.1.4). */
module Ordering {
  import opened Types
  import opened Requests

  predicate StringLess(a: string, b: string) {
    if b == [] then false
    else if a == [] then true
    else a[0] < b[0] || (a[0] == b[0] && StringLess(a[1..], b[1..]))
  }

  lemma {:induction false} StringLessIrreflexive(a: string)
    ensures !StringLess(a, a)
  {
    if a != [] {
      StringLessIrreflexive(a[1..]);
    }
  }

  lemma {:induction false} StringLessTransitive(a: string, b: string, c: string)
    requires StringLess(a, b) && StringLess(b, c)
    ensures StringLess(a, c)
  {
    if a != [] && a[0] == b[0] && b[0] == c[0] {
      StringLessTransitive(a[1..], b[1..], c[1..]);
    }
  }

  lemma {:induction false} StringLessTotal(a: string, b: string)
    ensures StringLess(a, b) || StringLess(b, a) || a == b
  {
    if a != [] && b != [] && a[0] == b[0] {
      StringLessTotal(a[1..], b[1..]);
    }
  }

  /** The first character in which they differ decides between two strings, and a string
      comes before every longer one that starts with it. */
  ghost predicate FirstDifference(a: string, b: string, k: nat) {
    && k <= |a| && k < |b| && a[..k] == b[..k]
    && (k == |a| || a[k] < b[k])
  }

  lemma {:induction false} StringLessMeaning(a: string, b: string)
    ensures StringLess(a, b) <==> exists k: nat :: FirstDifference(a, b, k)
  {
    if a == [] || b == [] {
      assert b != [] ==> FirstDifference(a, b, 0);
    } else if a[0] != b[0] {
      assert StringLess(a, b) ==> FirstDifference(a, b, 0);
      if k: nat :| FirstDifference(a, b, k) && k > 0 {
        assert a[..k][0] == b[..k][0];
      }
    } else {
      StringLessMeaning(a[1..], b[1..]);
      if k: nat :| FirstDifference(a[1..], b[1..], k) {
        LaterDifference(a, b, k);
      }
      forall k: nat | FirstDifference(a, b, k) ensures FirstDifference(a[1..], b[1..], k - 1) {
        EarlierDifference(a, b, k);
      }
    }
  }

  lemma LaterDifference(a: string, b: string, k: nat)
    requires a != [] && b != [] && a[0] == b[0] && FirstDifference(a[1..], b[1..], k)
    ensures FirstDifference(a, b, k + 1)
  {
    assert a[..k + 1] == [a[0]] + a[1..][..k] && b[..k + 1] == [b[0]] + b[1..][..k];
  }

  lemma EarlierDifference(a: string, b: string, k: nat)
    requires a != [] && b != [] && a[0] == b[0] && FirstDifference(a, b, k)
    ensures k > 0 && FirstDifference(a[1..], b[1..], k - 1)
  {
    assert a[1..][..k - 1] == a[..k][1..] && b[1..][..k - 1] == b[..k][1..];
  }

  /** `a` has the later status timestamp; a missing timestamp is the earliest. */
  predicate MoreRecent(a: Option<DateTime>, b: Option<DateTime>) {
    a.Some? && (b.None? || Earlier(b.value, a.value))
  }

  predicate Before(a: Task, b: Task) {
    || MoreRecent(a.status.timestamp, b.status.timestamp)
    || (a.status.timestamp == b.status.timestamp && StringLess(a.id, b.id))
  }

  /** What a listing promises of a task and any later one: the most recently updated come
      first, those without a time last, and at the same time the smaller id. */
  ghost predicate ListedBefore(a: Task, b: Task) {
    match b.status.timestamp
    case None => a.status.timestamp.Some? || exists k: nat :: FirstDifference(a.id, b.id, k)
    case Some(later) =>
      && a.status.timestamp.Some?
      && var t := a.status.timestamp.value;
      && (t.seconds > later.seconds || (t.seconds == later.seconds && t.nanos >= later.nanos))
      && (t == later ==> exists k: nat :: FirstDifference(a.id, b.id, k))
  }

  lemma BeforeMeaning(a: Task, b: Task)
    ensures Before(a, b) <==> ListedBefore(a, b)
  {
    StringLessMeaning(a.id, b.id);
  }

  lemma BeforeIrreflexive(a: Task)
    ensures !Before(a, a)
  {
    StringLessIrreflexive(a.id);
  }

  lemma BeforeTransitive(a: Task, b: Task, c: Task)
    requires Before(a, b) && Before(b, c)
    ensures Before(a, c)
  {
    if a.status.timestamp == b.status.timestamp == c.status.timestamp {
      StringLessTransitive(a.id, b.id, c.id);
    }
  }

  lemma BeforeTotal(a: Task, b: Task)
    requires a.id != b.id
    ensures Before(a, b) || Before(b, a)
  {
    StringLessTotal(a.id, b.id);
  }

  predicate ConfigBefore(a: PushConfig, b: PushConfig) {
    a.id.Some? && b.id.Some? && StringLess(a.id.value, b.id.value)
  }

  ghost predicate StrictOrder<T(!new)>(less: (T, T) -> bool) {
    && (forall x :: !less(x, x))
    && (forall x, y, z :: less(x, y) && less(y, z) ==> less(x, z))
  }

  lemma OrdersAreStrict()
    ensures StrictOrder(Before) && StrictOrder(ConfigBefore)
  {
    forall a ensures !Before(a, a) {
      BeforeIrreflexive(a);
    }
    forall a, b, c | Before(a, b) && Before(b, c) ensures Before(a, c) {
      BeforeTransitive(a, b, c);
    }
    forall a ensures !ConfigBefore(a, a) {
      if a.id.Some? {
        StringLessIrreflexive(a.id.value);
      }
    }
    forall a, b, c | ConfigBefore(a, b) && ConfigBefore(b, c) ensures ConfigBefore(a, c) {
      StringLessTransitive(a.id.value, b.id.value, c.id.value);
    }
  }

  predicate Sorted<T>(less: (T, T) -> bool, s: seq<T>) {
    forall i, j | 0 <= i < j < |s| :: less(s[i], s[j])
  }

  /** Any two elements of the list are ordered one way or the other. */
  predicate Comparable<T>(less: (T, T) -> bool, s: seq<T>) {
    forall i, j | 0 <= i < j < |s| :: less(s[i], s[j]) || less(s[j], s[i])
  }

  predicate DistinctTaskIds(s: seq<Task>) {
    forall i, j | 0 <= i < j < |s| :: s[i].id != s[j].id
  }

  lemma DistinctComparable(s: seq<Task>)
    requires DistinctTaskIds(s)
    ensures Comparable(Before, s)
  {
    forall i, j | 0 <= i < j < |s| ensures Before(s[i], s[j]) || Before(s[j], s[i]) {
      BeforeTotal(s[i], s[j]);
    }
  }

  function Insert<T>(less: (T, T) -> bool, t: T, s: seq<T>): seq<T> {
    if s == [] || less(t, s[0]) then [t] + s else [s[0]] + Insert(less, t, s[1..])
  }

  /** A sort, standing for the library's. */
  function Sort<T>(less: (T, T) -> bool, s: seq<T>): seq<T> {
    if s == [] then [] else Insert(less, s[|s| - 1], Sort(less, s[..|s| - 1]))
  }

  lemma {:induction false} InsertElements<T>(less: (T, T) -> bool, t: T, s: seq<T>)
    ensures forall x :: x in Insert(less, t, s) <==> x == t || x in s
    ensures |Insert(less, t, s)| == |s| + 1
  {
    if s != [] && !less(t, s[0]) {
      InsertElements(less, t, s[1..]);
      assert s == [s[0]] + s[1..];
    }
  }

  lemma {:induction false} InsertSorted<T(!new)>(less: (T, T) -> bool, t: T, s: seq<T>)
    requires StrictOrder(less) && Sorted(less, s)
    requires forall x | x in s :: less(t, x) || less(x, t)
    ensures Sorted(less, Insert(less, t, s))
  {
    if s == [] {
    } else if less(t, s[0]) {
      var r := Insert(less, t, s);
      forall j | 0 < j < |r| ensures less(t, r[j]) {
        assert r[j] == s[j - 1];
        assert j > 1 ==> less(s[0], s[j - 1]);
      }
    } else {
      InsertSorted(less, t, s[1..]);
      InsertElements(less, t, s[1..]);
      var rest := Insert(less, t, s[1..]);
      forall j | 0 <= j < |rest| ensures less(s[0], rest[j]) {
        assert rest[j] in rest;
        assert s[0] in s;
      }
    }
  }

  lemma {:induction false} SortElements<T>(less: (T, T) -> bool, s: seq<T>)
    ensures forall x :: x in Sort(less, s) <==> x in s
    ensures |Sort(less, s)| == |s|
  {
    if s != [] {
      var n := |s| - 1;
      SortElements(less, s[..n]);
      InsertElements(less, s[n], Sort(less, s[..n]));
      assert s == s[..n] + [s[n]];
    }
  }

  lemma {:induction false} SortSorts<T(!new)>(less: (T, T) -> bool, s: seq<T>)
    requires StrictOrder(less) && Comparable(less, s)
    ensures Sorted(less, Sort(less, s))
  {
    if s != [] {
      var n := |s| - 1;
      SortSorts(less, s[..n]);
      SortElements(less, s[..n]);
      InsertSorted(less, s[n], Sort(less, s[..n]));
    }
  }

  lemma {:induction false} SortedCardinality<T(!new)>(less: (T, T) -> bool, s: seq<T>)
    requires StrictOrder(less) && Sorted(less, s)
    ensures |set x | x in s| == |s|
  {
    if s != [] {
      var n := |s| - 1;
      SortedCardinality(less, s[..n]);
      assert (set x | x in s) == (set x | x in s[..n]) + {s[n]};
    }
  }

  /** A strict order has at most one sorted enumeration of a set of elements. */
  lemma {:induction false} SortedUnique<T(!new)>(less: (T, T) -> bool, s: seq<T>, t: seq<T>)
    requires StrictOrder(less) && Sorted(less, s) && Sorted(less, t)
    requires forall x :: x in s <==> x in t
    ensures s == t
  {
    SortedCardinality(less, s);
    SortedCardinality(less, t);
    assert (set x | x in s) == (set x | x in t);
    if s != [] {
      assert s[0] in t && t[0] in s;
      var j :| 0 <= j < |t| && t[j] == s[0];
      var i :| 0 <= i < |s| && s[i] == t[0];
      assert s[0] == t[0];
      forall x ensures x in s[1..] <==> x in t[1..] {
        TailWithoutHead(less, s, x);
        TailWithoutHead(less, t, x);
      }
      SortedUnique(less, s[1..], t[1..]);
      assert s == [s[0]] + s[1..] && t == [t[0]] + t[1..];
    }
  }

  lemma TailWithoutHead<T(!new)>(less: (T, T) -> bool, s: seq<T>, x: T)
    requires StrictOrder(less) && Sorted(less, s) && s != []
    ensures x in s[1..] <==> x in s && x != s[0]
  {
    assert s == [s[0]] + s[1..];
    if x in s[1..] {
      var k :| 0 <= k < |s[1..]| && s[1..][k] == x;
      assert less(s[0], s[k + 1]);
    }
  }

  /** Two enumerations of the same tasks sort to the same list, whatever order a hash
      map happened to produce them in. */
  lemma SortDeterministic(s: seq<Task>, t: seq<Task>)
    requires DistinctTaskIds(s) && DistinctTaskIds(t)
    requires forall x :: x in s <==> x in t
    ensures Sort(Before, s) == Sort(Before, t)
  {
    OrdersAreStrict();
    DistinctComparable(s);
    DistinctComparable(t);
    SortSorts(Before, s);
    SortSorts(Before, t);
    SortElements(Before, s);
    SortElements(Before, t);
    SortedUnique(Before, Sort(Before, s), Sort(Before, t));
  }
}
