/** What one ListTasks call returns and what a client that follows the page tokens
    ends up with (A2A specification, sections 3.1.4 and 13.1).

    The pages are described over `shown`, the whole sorted list of matching tasks as
    the store presents them, and `visible`, the authorization answer per task. */
module TaskPaging {
  import opened Types
  import opened Sequences
  import opened Paging
  import opened Store

  const MAX_STORE_PAGES: nat := 20

  /** One plain scan: stop after `need` visible tasks or at `cap`. */
  function Scan(shown: seq<Task>, visible: Task -> bool, need: nat, pos: nat, cap: nat): (end: nat)
    requires pos <= cap <= |shown|
    ensures pos <= end <= cap
    decreases cap - pos
  {
    if need == 0 || pos == cap then pos
    else Scan(shown, visible, if visible(shown[pos]) then need - 1 else need, pos + 1, cap)
  }

  function CallCap(shown: seq<Task>, pageSize: nat, start: nat): nat {
    Min(start + MAX_STORE_PAGES * pageSize, |shown|)
  }

  /** Where a call that starts at `start` stops looking. */
  function CallEnd(shown: seq<Task>, visible: Task -> bool, pageSize: nat, start: nat): (end: nat)
    requires start <= |shown|
    ensures start <= end <= |shown|
  {
    Scan(shown, visible, pageSize, start, CallCap(shown, pageSize, start))
  }

  function Window(shown: seq<Task>, visible: Task -> bool, from: nat, to: nat): seq<Task>
    requires from <= to <= |shown|
  {
    Filter(shown[from..to], visible)
  }

  lemma WindowSplit(shown: seq<Task>, visible: Task -> bool, from: nat, mid: nat, to: nat)
    requires from <= mid <= to <= |shown|
    ensures Window(shown, visible, from, to) == Window(shown, visible, from, mid) + Window(shown, visible, mid, to)
  {
    assert shown[from..to] == shown[from..mid] + shown[mid..to];
    FilterConcat(shown[from..mid], shown[mid..to], visible);
  }

  lemma WindowOne(shown: seq<Task>, visible: Task -> bool, i: nat)
    requires i < |shown|
    ensures Window(shown, visible, i, i + 1) == if visible(shown[i]) then [shown[i]] else []
  {
    var one := shown[i..i + 1];
    assert one[..0] == [];
    assert one[0] == shown[i];
  }

  lemma WindowGrows(shown: seq<Task>, visible: Task -> bool, from: nat, to: nat)
    requires from <= to < |shown|
    ensures Window(shown, visible, from, to + 1)
         == Window(shown, visible, from, to) + (if visible(shown[to]) then [shown[to]] else [])
  {
    WindowOne(shown, visible, to);
    WindowSplit(shown, visible, from, to, to + 1);
  }

  lemma WindowHead(shown: seq<Task>, visible: Task -> bool, pos: nat, mid: nat)
    requires pos < mid <= |shown|
    ensures |Window(shown, visible, pos, mid)|
         == (if visible(shown[pos]) then 1 else 0) + |Window(shown, visible, pos + 1, mid)|
  {
    WindowOne(shown, visible, pos);
    WindowSplit(shown, visible, pos, pos + 1, mid);
  }

  /** A scan can be resumed: what was found so far only lowers the need. */
  lemma {:induction false} ScanResumes(shown: seq<Task>, visible: Task -> bool, need: nat, pos: nat, mid: nat, cap: nat)
    requires pos <= mid <= cap <= |shown|
    requires mid > pos ==> |Window(shown, visible, pos, mid - 1)| < need
    ensures |Window(shown, visible, pos, mid)| <= need
    ensures Scan(shown, visible, need, pos, cap)
         == Scan(shown, visible, need - |Window(shown, visible, pos, mid)|, mid, cap)
    decreases mid - pos
  {
    if pos < mid {
      WindowHead(shown, visible, pos, mid);
      if pos + 1 < mid {
        WindowHead(shown, visible, pos, mid - 1);
      }
      ScanResumes(shown, visible, if visible(shown[pos]) then need - 1 else need, pos + 1, mid, cap);
    }
  }

  /** What stopping means: at most `need` visible tasks were passed, and fewer only
      at the cap; nothing visible beyond the last needed one was consumed. */
  lemma {:induction false} ScanMeaning(shown: seq<Task>, visible: Task -> bool, need: nat, pos: nat, cap: nat)
    requires pos <= cap <= |shown|
    ensures var end := Scan(shown, visible, need, pos, cap);
            && |Window(shown, visible, pos, end)| <= need
            && (end < cap ==> |Window(shown, visible, pos, end)| == need)
    decreases cap - pos
  {
    if need != 0 && pos < cap {
      var next := if visible(shown[pos]) then need - 1 else need;
      ScanMeaning(shown, visible, next, pos + 1, cap);
      WindowOne(shown, visible, pos);
      WindowSplit(shown, visible, pos, pos + 1, Scan(shown, visible, next, pos + 1, cap));
    }
  }

  /** One call: its page is no longer than asked for, is short only at the end of the
      list or after twenty store pages, looks at no more than twenty store pages, and
      - if it leaves anything over - moves on by at least a page. */
  lemma CallBounds(shown: seq<Task>, visible: Task -> bool, pageSize: nat, start: nat)
    requires start <= |shown| && pageSize > 0
    ensures var end := CallEnd(shown, visible, pageSize, start);
            var page := Window(shown, visible, start, end);
            && |page| <= pageSize
            && end - start <= 20 * pageSize
            && (|page| < pageSize ==> end == |shown| || end == start + 20 * pageSize)
            && (end < |shown| ==> end >= start + pageSize)
  {
    ScanMeaning(shown, visible, pageSize, start, CallCap(shown, pageSize, start));
  }

  // ---- Following the tokens ----

  predicate TokensUsable(shown: seq<Task>) {
    Distinct(Ids(shown)) && forall i | 0 <= i < |shown| :: shown[i].id != ""
  }

  /** A client's pages: call with a token, and again with the returned one until it
      is empty. */
  function ClientPages(shown: seq<Task>, visible: Task -> bool, pageSize: nat, token: Option<string>): seq<seq<Task>>
    requires TokensUsable(shown) && pageSize > 0
    decreases |shown| - PageStart(Ids(shown), token)
  {
    var start := PageStart(Ids(shown), token);
    var end := CallEnd(shown, visible, pageSize, start);
    var next := TokenAt(Ids(shown), end);
    CallBounds(shown, visible, pageSize, start);
    if next == "" then [Window(shown, visible, start, end)]
    else
      TokenResumes(Ids(shown), end);
      [Window(shown, visible, start, end)] + ClientPages(shown, visible, pageSize, Some(next))
  }

  lemma WindowThenRest(shown: seq<Task>, visible: Task -> bool, start: nat, end: nat, rest: seq<seq<Task>>)
    requires start <= end <= |shown| && Flatten(rest) == Filter(shown[end..], visible)
    ensures Flatten([Window(shown, visible, start, end)] + rest) == Filter(shown[start..], visible)
  {
    FlattenCons(Window(shown, visible, start, end), rest);
    WindowSplit(shown, visible, start, end, |shown|);
    assert shown[start..|shown|] == shown[start..] && shown[end..|shown|] == shown[end..];
  }

  lemma LastWindow(shown: seq<Task>, visible: Task -> bool, start: nat)
    requires start <= |shown|
    ensures Flatten([Window(shown, visible, start, |shown|)]) == Filter(shown[start..], visible)
  {
    var page := Window(shown, visible, start, |shown|);
    assert shown[start..|shown|] == shown[start..];
    assert [page] == [] + [page];
    FlattenSnoc([], page);
  }

  /** Completeness: the pages, put together, are exactly the visible tasks from the
      starting point on, in order - none repeated, none left out. */
  lemma {:induction false} PagesComplete(shown: seq<Task>, visible: Task -> bool, pageSize: nat, token: Option<string>)
    requires TokensUsable(shown) && pageSize > 0
    ensures Flatten(ClientPages(shown, visible, pageSize, token))
         == Filter(shown[PageStart(Ids(shown), token)..], visible)
    decreases |shown| - PageStart(Ids(shown), token)
  {
    var start := PageStart(Ids(shown), token);
    var end := CallEnd(shown, visible, pageSize, start);
    var next := TokenAt(Ids(shown), end);
    CallBounds(shown, visible, pageSize, start);
    if next == "" {
      assert end == |shown|;
      LastWindow(shown, visible, start);
    } else {
      TokenResumes(Ids(shown), end);
      PagesComplete(shown, visible, pageSize, Some(next));
      WindowThenRest(shown, visible, start, end, ClientPages(shown, visible, pageSize, Some(next)));
    }
  }

  /** From the start: the whole authorized subsequence, without a repeated id. */
  lemma ListTasksComplete(shown: seq<Task>, visible: Task -> bool, pageSize: nat)
    requires TokensUsable(shown) && pageSize > 0
    ensures var all := Flatten(ClientPages(shown, visible, pageSize, None));
            && all == Filter(shown, visible)
            && (forall t :: t in all <==> t in shown && visible(t))
            && (forall i, j | 0 <= i < j < |all| :: all[i] != all[j])
  {
    PagesComplete(shown, visible, pageSize, None);
    assert shown[0..] == shown;
    var all := Filter(shown, visible);
    forall t ensures t in all <==> t in shown && visible(t) {
      if t in all {
        FilterSound(shown, visible, t);
      }
      if t in shown && visible(t) {
        FilterKeeps(shown, visible, t);
      }
    }
    forall i, j | 0 <= i < j < |shown| ensures shown[i] != shown[j] {
      assert Ids(shown)[i] != Ids(shown)[j];
    }
    FilterDistinct(shown, visible);
  }

  function CallsNeeded(n: nat, pageSize: nat): nat
    requires pageSize > 0
  {
    if n == 0 then 1 else (n + pageSize - 1) / pageSize
  }

  lemma {:induction false} TimesMonotone(d: nat, x: nat, y: nat)
    requires x <= y
    ensures d * x <= d * y
  {
    if x < y {
      TimesMonotone(d, x, y - 1);
      assert d * y == d * (y - 1) + d;
    }
  }

  lemma DivisionStep(a: nat, b: nat, d: nat)
    requires d > 0 && a + d <= b
    ensures a / d + 1 <= b / d
  {
    var q, r := a / d, b / d;
    assert a == d * q + a % d;
    assert b == d * r + b % d;
    if r < q + 1 {
      TimesMonotone(d, r, q);
    }
  }

  /** Every call but the last moves on by a page, so so many calls fit in `n` tasks. */
  predicate FitsIn(calls: nat, n: int, pageSize: nat) {
    calls == 1 || (calls > 1 && (calls - 1) * pageSize < n)
  }

  lemma OneCallMore(calls: nat, n: nat, moved: nat, pageSize: nat)
    requires FitsIn(calls, n - moved, pageSize) && pageSize <= moved < n
    ensures FitsIn(calls + 1, n, pageSize)
  {
    assert calls * pageSize == (calls - 1) * pageSize + pageSize;
  }

  lemma FitsIsNeeded(calls: nat, n: nat, pageSize: nat)
    requires pageSize > 0 && FitsIn(calls, n, pageSize)
    ensures calls <= CallsNeeded(n, pageSize)
  {
    var last := n + pageSize - 1;
    if calls == 1 {
      if n > 0 {
        DivisionStep(0, last, pageSize);
      }
    } else {
      AtLeastQuotient(calls, last, pageSize);
    }
  }

  lemma AtLeastQuotient(q: nat, a: nat, d: nat)
    requires d > 0 && (q - 1) * d + d <= a
    ensures q <= a / d
  {
    assert a == d * (a / d) + a % d;
    if a / d < q {
      TimesMonotone(d, a / d, q - 1);
    }
  }

  lemma OnePageMore(shown: seq<Task>, visible: Task -> bool, pageSize: nat, token: Option<string>)
    requires TokensUsable(shown) && pageSize > 0
    ensures var end := CallEnd(shown, visible, pageSize, PageStart(Ids(shown), token));
            var next := TokenAt(Ids(shown), end);
            if next == "" then |ClientPages(shown, visible, pageSize, token)| == 1
            else
              && PageStart(Ids(shown), Some(next)) == end < |shown|
              && |ClientPages(shown, visible, pageSize, token)|
                 == 1 + |ClientPages(shown, visible, pageSize, Some(next))|
  {
    var end := CallEnd(shown, visible, pageSize, PageStart(Ids(shown), token));
    if TokenAt(Ids(shown), end) != "" {
      TokenResumes(Ids(shown), end);
    }
  }

  lemma {:induction false} PagesCounted(shown: seq<Task>, visible: Task -> bool, pageSize: nat, token: Option<string>)
    requires TokensUsable(shown) && pageSize > 0
    ensures FitsIn(|ClientPages(shown, visible, pageSize, token)|, |shown| - PageStart(Ids(shown), token), pageSize)
    decreases |shown| - PageStart(Ids(shown), token)
  {
    var start := PageStart(Ids(shown), token);
    var end := CallEnd(shown, visible, pageSize, start);
    var next := TokenAt(Ids(shown), end);
    OnePageMore(shown, visible, pageSize, token);
    if next != "" {
      CallMoves(shown, visible, pageSize, start);
      PagesCounted(shown, visible, pageSize, Some(next));
      OneCallMore(|ClientPages(shown, visible, pageSize, Some(next))|, |shown| - start, end - start, pageSize);
    }
  }

  lemma CallMoves(shown: seq<Task>, visible: Task -> bool, pageSize: nat, start: nat)
    requires start <= |shown| && pageSize > 0 && CallEnd(shown, visible, pageSize, start) < |shown|
    ensures CallEnd(shown, visible, pageSize, start) >= start + pageSize
  {
    CallBounds(shown, visible, pageSize, start);
  }

  /** A client makes at most max(1, ceil(n / pageSize)) calls, n being what is left
      of the list where it starts. */
  lemma PagesBounded(shown: seq<Task>, visible: Task -> bool, pageSize: nat, token: Option<string>)
    requires TokensUsable(shown) && pageSize > 0
    ensures |ClientPages(shown, visible, pageSize, token)|
         <= CallsNeeded(|shown| - PageStart(Ids(shown), token), pageSize)
  {
    PagesCounted(shown, visible, pageSize, token);
    FitsIsNeeded(|ClientPages(shown, visible, pageSize, token)|, |shown| - PageStart(Ids(shown), token), pageSize);
  }
}
