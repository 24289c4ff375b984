/** Filtering, cutting and flattening sequences. */
module Sequences {

  function Filter<T>(s: seq<T>, keep: T -> bool): (r: seq<T>)
    ensures |r| <= |s|
  {
    if s == [] then []
    else
      var last := s[|s| - 1];
      Filter(s[..|s| - 1], keep) + (if keep(last) then [last] else [])
  }

  lemma FilterSnoc<T>(s: seq<T>, x: T, keep: T -> bool)
    ensures Filter(s + [x], keep) == Filter(s, keep) + (if keep(x) then [x] else [])
  {
    assert (s + [x])[..|s|] == s;
  }

  lemma {:induction false} FilterConcat<T>(a: seq<T>, b: seq<T>, keep: T -> bool)
    ensures Filter(a + b, keep) == Filter(a, keep) + Filter(b, keep)
  {
    if b == [] {
      assert a + b == a;
    } else {
      var init, last := b[..|b| - 1], b[|b| - 1];
      assert a + b == (a + init) + [last];
      FilterSnoc(a + init, last, keep);
      FilterConcat(a, init, keep);
    }
  }

  lemma {:induction false} FilterAll<T>(s: seq<T>, keep: T -> bool)
    requires forall i | 0 <= i < |s| :: keep(s[i])
    ensures Filter(s, keep) == s
  {
    if s != [] {
      FilterAll(s[..|s| - 1], keep);
      assert s == s[..|s| - 1] + [s[|s| - 1]];
    }
  }

  lemma {:induction false} FilterNone<T>(s: seq<T>, keep: T -> bool)
    requires forall i | 0 <= i < |s| :: !keep(s[i])
    ensures Filter(s, keep) == []
  {
    if s != [] {
      FilterNone(s[..|s| - 1], keep);
    }
  }

  lemma {:induction false} FilterSound<T>(s: seq<T>, keep: T -> bool, x: T)
    requires x in Filter(s, keep)
    ensures x in s && keep(x)
  {
    if x in Filter(s[..|s| - 1], keep) {
      FilterSound(s[..|s| - 1], keep, x);
    }
  }

  lemma {:induction false} FilterKeeps<T>(s: seq<T>, keep: T -> bool, x: T)
    requires x in s && keep(x)
    ensures x in Filter(s, keep)
  {
    if x != s[|s| - 1] {
      FilterKeeps(s[..|s| - 1], keep, x);
    }
  }

  lemma {:induction false} FilterShrinks<T>(s: seq<T>, keep: T -> bool, x: T)
    requires x in s && !keep(x)
    ensures |Filter(s, keep)| < |s|
  {
    if x != s[|s| - 1] {
      FilterShrinks(s[..|s| - 1], keep, x);
    }
  }

  /** Filtering never reorders or repeats: distinct in, distinct out. */
  lemma {:induction false} FilterDistinct<T>(s: seq<T>, keep: T -> bool)
    requires forall i, j | 0 <= i < j < |s| :: s[i] != s[j]
    ensures forall i, j | 0 <= i < j < |Filter(s, keep)| :: Filter(s, keep)[i] != Filter(s, keep)[j]
  {
    if s != [] {
      var init, last := s[..|s| - 1], s[|s| - 1];
      FilterDistinct(init, keep);
      if last in Filter(init, keep) {
        FilterSound(init, keep, last);
      }
    }
  }

  /** The prefix through the first element that stops, or all of `s`. */
  function UpToFirst<T>(s: seq<T>, stop: T -> bool): (r: seq<T>)
    ensures r <= s
  {
    if s == [] then []
    else if stop(s[0]) then [s[0]]
    else [s[0]] + UpToFirst(s[1..], stop)
  }

  predicate NoneStops<T>(s: seq<T>, stop: T -> bool) {
    forall i | 0 <= i < |s| :: !stop(s[i])
  }

  /** Nothing but possibly the last element stops. */
  predicate StopsOnlyLast<T>(s: seq<T>, stop: T -> bool) {
    forall i | 0 <= i < |s| - 1 :: !stop(s[i])
  }

  lemma {:induction false} UpToFirstStopsOnlyLast<T>(s: seq<T>, stop: T -> bool)
    ensures StopsOnlyLast(UpToFirst(s, stop), stop)
    ensures NoneStops(UpToFirst(s, stop), stop) ==> UpToFirst(s, stop) == s
  {
    if s != [] && !stop(s[0]) {
      UpToFirstStopsOnlyLast(s[1..], stop);
      var r, rest := UpToFirst(s, stop), UpToFirst(s[1..], stop);
      forall i | 0 <= i < |r| - 1 ensures !stop(r[i]) {
        if i > 0 {
          assert r[i] == rest[i - 1];
        }
      }
      if NoneStops(r, stop) {
        forall i | 0 <= i < |rest| ensures !stop(rest[i]) {
          assert rest[i] == r[i + 1];
        }
      }
    }
  }

  /** A prefix in which nothing stops early is inside the cut; if its last element
      stops, it is the cut. */
  lemma {:induction false} PrefixOfCut<T>(p: seq<T>, s: seq<T>, stop: T -> bool)
    requires p <= s && StopsOnlyLast(p, stop)
    ensures p <= UpToFirst(s, stop)
    ensures p != [] && stop(p[|p| - 1]) ==> p == UpToFirst(s, stop)
  {
    if p != [] && !(|p| == 1 && stop(p[0])) {
      assert |p| > 1 ==> !stop(p[0]);
      PrefixOfCut(p[1..], s[1..], stop);
      assert p == [p[0]] + p[1..];
    }
  }

  lemma CutOfWhole<T>(s: seq<T>, stop: T -> bool)
    requires StopsOnlyLast(s, stop)
    ensures UpToFirst(s, stop) == s
  {
    PrefixOfCut(s, s, stop);
  }

  function Flatten<T>(ss: seq<seq<T>>): seq<T> {
    if ss == [] then [] else Flatten(ss[..|ss| - 1]) + ss[|ss| - 1]
  }

  lemma FlattenSnoc<T>(ss: seq<seq<T>>, s: seq<T>)
    ensures Flatten(ss + [s]) == Flatten(ss) + s
  {
    assert (ss + [s])[..|ss|] == ss;
  }

  lemma AppendFlattened<T>(h0: seq<T>, h1: seq<T>, ss: seq<seq<T>>, s: seq<T>)
    requires h1 == h0 + Flatten(ss)
    ensures h1 + s == h0 + Flatten(ss + [s])
  {
    FlattenSnoc(ss, s);
  }

  lemma Regroup<T>(a: seq<T>, b: seq<T>, c: seq<T>)
    ensures (a + b) + c == a + (b + c)
  {
  }

  lemma {:induction false} FlattenCons<T>(s: seq<T>, ss: seq<seq<T>>)
    ensures Flatten([s] + ss) == s + Flatten(ss)
  {
    if ss == [] {
      assert [s] + ss == [] + [s];
      FlattenSnoc([], s);
    } else {
      var n := |ss| - 1;
      FlattenCons(s, ss[..n]);
      assert [s] + ss == ([s] + ss[..n]) + [ss[n]];
      FlattenSnoc([s] + ss[..n], ss[n]);
      Regroup(s, Flatten(ss[..n]), ss[n]);
    }
  }
}
