/** ListTasks and ListTaskPushNotificationConfigs over the store's own pages. */
module ListOperations {
  import opened Types
  import opened Requests
  import opened Sequences
  import opened Turns
  import opened Ordering
  import opened Paging
  import opened Store
  import opened TaskPaging

  function AllTrimmed(ts: seq<Task>, historyLength: Option<int>): seq<Task> {
    seq(|ts|, i requires 0 <= i < |ts| => Trimmed(ts[i], historyLength))
  }

  function EffectivePageSize(pageSize: Option<int>): Option<nat> {
    match pageSize
    case None => Some(50)
    case Some(n) => if 1 <= n <= 100 then Some(n) else None
  }

  predicate ValidHistoryLength(historyLength: Option<int>) {
    historyLength.Some? ==> historyLength.value >= 0
  }

  /** All tasks a request matches, sorted, as the store presents them. */
  ghost function ShownListing(s: StoreState, req: ListTasksRequest): seq<Task> {
    AllShown(Listing(s, req.tenant, req), req.includeArtifacts.GetOr(false))
  }

  lemma ShownPage(l: seq<Task>, includeArtifacts: bool, start: nat, end: nat)
    requires start <= end <= |l|
    ensures Ids(AllShown(l, includeArtifacts)) == Ids(l)
    ensures AllShown(l, includeArtifacts)[start..end] == AllShown(l[start..end], includeArtifacts)
  {
  }

  /** A page cut from the sorted list and then shown is cut from the shown list. */
  lemma PageOfShown(l: seq<Task>, includeArtifacts: bool, shown: seq<Task>, pageSize: nat, token: Option<string>)
    requires shown == AllShown(l, includeArtifacts)
    ensures |shown| == |l| && Ids(shown) == Ids(l)
    ensures var start := PageStart(Ids(l), token);
            var end := Min(start + pageSize, |l|);
            && start == PageStart(Ids(shown), token)
            && AllShown(l[start..end], includeArtifacts) == shown[start..end]
            && |AllShown(l[start..end], includeArtifacts)| == end - start
  {
    var start := PageStart(Ids(l), token);
    ShownPage(l, includeArtifacts, start, Min(start + pageSize, |l|));
  }

  lemma PageFits(l: seq<Task>, includeArtifacts: bool, shown: seq<Task>, pageSize: nat, token: Option<string>,
                 pos: nat, page: seq<Task>)
    requires shown == AllShown(l, includeArtifacts) && pos == PageStart(Ids(shown), token)
    requires var start := PageStart(Ids(l), token);
             page == AllShown(l[start..Min(start + pageSize, |l|)], includeArtifacts)
    ensures Ids(shown) == Ids(l) && |shown| == |l| && pos == PageStart(Ids(l), token)
    ensures pos + |page| == Min(pos + pageSize, |shown|) && page == shown[pos..pos + |page|]
  {
    PageOfShown(l, includeArtifacts, shown, pageSize, token);
  }

  lemma ShownUsable(s: StoreState, req: ListTasksRequest)
    requires s.Valid()
    ensures Ids(ShownListing(s, req)) == Ids(Listing(s, req.tenant, req))
    ensures Distinct(Ids(ShownListing(s, req)))
  {
    ListingDistinct(s, req.tenant, req);
    assert Ids(ShownListing(s, req)) == Ids(Listing(s, req.tenant, req));
  }

  lemma SameMatching(s: StoreState, req: ListTasksRequest, other: ListTasksRequest)
    requires other == req.(pageSize := other.pageSize, pageToken := other.pageToken)
    ensures ShownListing(s, other) == ShownListing(s, req)
    ensures Listing(s, other.tenant, other) == Listing(s, req.tenant, req)
  {
    assert Matching(s, other.tenant, other) == Matching(s, req.tenant, req);
  }

  /** One store page, as a window of the shown list. */
  method StorePage(store: InMemoryTaskStore, req: ListTasksRequest, pageSize: nat, token: Option<string>,
                   ghost shown: seq<Task>, ghost pos: nat)
    returns (page: seq<Task>, next: string, total: nat)
    requires store.Valid() && 1 <= pageSize <= 100
    requires shown == ShownListing(store.State(), req) && pos == PageStart(Ids(shown), token)
    ensures pos + |page| == Min(pos + pageSize, |shown|) && page == shown[pos..pos + |page|]
    ensures next == TokenAt(Ids(shown), pos + |page|) && total == |shown|
  {
    var pageReq := req.(pageSize := Some(pageSize), pageToken := token);
    SameMatching(store.State(), req, pageReq);
    ghost var l := Listing(store.State(), req.tenant, req);
    page, next, total := store.List(req.tenant, pageReq);
    PageFits(l, req.includeArtifacts.GetOr(false), shown, pageSize, token, pos, page);
  }

  /** What was taken from the page that ends at `pageEnd`: all its visible tasks, or those up
      to the one that fills the caller's page, with the id of the task after that one. */
  ghost predicate Took(shown: seq<Task>, visible: Task -> bool, pageSize: nat, start: nat, pos: nat, pageEnd: nat,
                       authorized: seq<Task>, filledAt: Option<string>, end: nat)
  {
    && start <= pos <= end <= pageEnd <= |shown|
    && authorized == Window(shown, visible, start, end)
    && (filledAt.None? ==> end == pageEnd && |authorized| < pageSize)
    && (filledAt.Some? ==>
          && filledAt.value == TokenAt(Ids(shown), end)
          && |authorized| == pageSize && end > pos && |Window(shown, visible, start, end - 1)| < pageSize)
  }

  /** Scans one page for visible tasks; `filledAt` is the resume token if that filled
      the caller's page. */
  method TakeVisible(ghost shown: seq<Task>, ghost start: nat, ghost pos: nat, page: seq<Task>, storeNext: string,
                     visible: Task -> bool, pageSize: nat, found: seq<Task>)
    returns (authorized: seq<Task>, filledAt: Option<string>, ghost end: nat)
    requires start <= pos && pos + |page| <= |shown| && page == shown[pos..pos + |page|]
    requires storeNext == TokenAt(Ids(shown), pos + |page|)
    requires found == Window(shown, visible, start, pos) && |found| < pageSize
    ensures Took(shown, visible, pageSize, start, pos, pos + |page|, authorized, filledAt, end)
    ensures found <= authorized
  {
    authorized, filledAt, end := found, None, pos;
    for i := 0 to |page|
      invariant end == pos + i && filledAt.None?
      invariant authorized == Window(shown, visible, start, pos + i) && |authorized| < pageSize && found <= authorized
    {
      PageElement(shown, pos, page, storeNext, i);
      WindowGrows(shown, visible, start, end);
      end := end + 1;
      if visible(page[i]) {
        authorized := authorized + [page[i]];
        if |authorized| == pageSize {
          filledAt := Some(if i + 1 < |page| then page[i + 1].id else storeNext);
          return;
        }
      }
    }
  }

  lemma PageElement(shown: seq<Task>, pos: nat, page: seq<Task>, storeNext: string, i: nat)
    requires pos + |page| <= |shown| && page == shown[pos..pos + |page|] && i < |page|
    requires storeNext == TokenAt(Ids(shown), pos + |page|)
    ensures page[i] == shown[pos + i]
    ensures TokenAt(Ids(shown), pos + i + 1) == if i + 1 < |page| then page[i + 1].id else storeNext
  {
  }

  /** A call is refused exactly for an out-of-range page size or history length. What
      it returns otherwise is one plain scan of the shown list, whatever the store's
      pages in between were. */
  ghost predicate ListTasksAnswer(s: StoreState, req: ListTasksRequest, visible: Task -> bool,
                                  r: Result<ListTasksResponse, A2aError>) {
    var pageSize := EffectivePageSize(req.pageSize);
    if pageSize.None? || !ValidHistoryLength(req.historyLength) then r == Err(InvalidParams)
    else
      var shown := ShownListing(s, req);
      var start := PageStart(Ids(shown), req.pageToken);
      var end := CallEnd(shown, visible, pageSize.value, start);
      r == Ok(ListTasksResponse(AllTrimmed(Window(shown, visible, start, end), req.historyLength),
                                TokenAt(Ids(shown), end), pageSize.value, |shown|))
  }

  /** What one round of the scan makes of the store page at `pos`. */
  ghost predicate Scanned(shown: seq<Task>, visible: Task -> bool, pageSize: nat, start: nat, pos: nat,
                          authorized: seq<Task>, filledAt: Option<string>, storeNext: string, end: nat)
  {
    var pageEnd := Min(pos + pageSize, |shown|);
    && storeNext == TokenAt(Ids(shown), pageEnd)
    && Took(shown, visible, pageSize, start, pos, pageEnd, authorized, filledAt, end)
  }

  lemma TookIsScanned(shown: seq<Task>, visible: Task -> bool, pageSize: nat, start: nat, pos: nat, pageEnd: nat,
                      authorized: seq<Task>, filledAt: Option<string>, storeNext: string, end: nat)
    requires Took(shown, visible, pageSize, start, pos, pageEnd, authorized, filledAt, end)
    requires pageEnd == Min(pos + pageSize, |shown|) && storeNext == TokenAt(Ids(shown), pageEnd)
    ensures Scanned(shown, visible, pageSize, start, pos, authorized, filledAt, storeNext, end)
  {
  }

  /** Where the scan stands before round `i`, short of a full page. */
  ghost predicate Scanning(shown: seq<Task>, visible: Task -> bool, pageSize: nat, start: nat, i: nat, pos: nat,
                           authorized: seq<Task>)
  {
    && start <= pos <= |shown| && pos == start + i * pageSize
    && authorized == Window(shown, visible, start, pos) && |authorized| < pageSize
  }

  lemma ScanStarts(shown: seq<Task>, visible: Task -> bool, pageSize: nat, start: nat)
    requires start <= |shown| && pageSize > 0
    ensures Scanning(shown, visible, pageSize, start, 0, start, [])
  {
  }

  lemma ScanStops(shown: seq<Task>, visible: Task -> bool, pageSize: nat, start: nat, i: nat, pos: nat,
                  authorized: seq<Task>, filledAt: Option<string>, storeNext: string, end: nat)
    requires TokensUsable(shown) && pageSize > 0 && i < MAX_STORE_PAGES && start + i * pageSize == pos <= |shown|
    requires Scanned(shown, visible, pageSize, start, pos, authorized, filledAt, storeNext, end)
    requires filledAt.Some? || storeNext == ""
    ensures CallEnd(shown, visible, pageSize, start) == end
    ensures (if filledAt.Some? then filledAt.value else "") == TokenAt(Ids(shown), end)
  {
    CapAhead(shown, pageSize, start, i, pos);
    if filledAt.None? {
      TokenEmptyAtEnd(shown, end);
    }
    AnswerReached(shown, visible, pageSize, start, end);
  }

  lemma ScanGoesOn(shown: seq<Task>, visible: Task -> bool, pageSize: nat, start: nat, i: nat, pos: nat,
                   authorized: seq<Task>, storeNext: string, end: nat)
    requires TokensUsable(shown) && start + i * pageSize == pos <= |shown|
    requires Scanned(shown, visible, pageSize, start, pos, authorized, None, storeNext, end) && storeNext != ""
    ensures Scanning(shown, visible, pageSize, start, i + 1, end, authorized) && end < |shown|
    ensures storeNext == TokenAt(Ids(shown), end) && PageStart(Ids(shown), Some(storeNext)) == end
  {
    assert (i + 1) * pageSize == i * pageSize + pageSize;
    TokenResumes(Ids(shown), end);
  }

  lemma ScanGivesUp(shown: seq<Task>, visible: Task -> bool, pageSize: nat, start: nat, pos: nat,
                    authorized: seq<Task>)
    requires pageSize > 0 && Scanning(shown, visible, pageSize, start, MAX_STORE_PAGES, pos, authorized)
    ensures CallEnd(shown, visible, pageSize, start) == pos
  {
    AnswerReached(shown, visible, pageSize, start, pos);
  }

  /** One round of the scan, on the store page just fetched. */
  method ScanPage(ghost shown: seq<Task>, ghost start: nat, ghost pos: nat, page: seq<Task>, storeNext: string,
                  visible: Task -> bool, pageSize: nat, found: seq<Task>)
    returns (authorized: seq<Task>, filledAt: Option<string>, ghost end: nat)
    requires start <= pos <= |shown| && pos + |page| == Min(pos + pageSize, |shown|)
    requires page == shown[pos..pos + |page|] && storeNext == TokenAt(Ids(shown), pos + |page|)
    requires found == Window(shown, visible, start, pos) && |found| < pageSize
    ensures Scanned(shown, visible, pageSize, start, pos, authorized, filledAt, storeNext, end)
  {
    authorized, filledAt, end := TakeVisible(shown, start, pos, page, storeNext, visible, pageSize, found);
    TookIsScanned(shown, visible, pageSize, start, pos, pos + |page|, authorized, filledAt, storeNext, end);
  }

  /** The bounded scan over store pages, as one plain scan. */
  method ScanPages(store: InMemoryTaskStore, req: ListTasksRequest, visible: Task -> bool, pageSize: nat,
                   ghost shown: seq<Task>)
    returns (authorized: seq<Task>, nextPageToken: string, total: nat)
    requires store.Valid() && 1 <= pageSize <= 100
    requires shown == ShownListing(store.State(), req) && TokensUsable(shown)
    ensures var start := PageStart(Ids(shown), req.pageToken);
            var end := CallEnd(shown, visible, pageSize, start);
            && authorized == Window(shown, visible, start, end)
            && nextPageToken == TokenAt(Ids(shown), end)
            && total == |shown|
  {
    ghost var start := PageStart(Ids(shown), req.pageToken);
    ghost var pos := start;
    ScanStarts(shown, visible, pageSize, start);
    authorized, nextPageToken, total := [], "", 0;
    var cursor := req.pageToken;
    var i := 0;
    while i < MAX_STORE_PAGES
      invariant 0 <= i <= MAX_STORE_PAGES
      invariant Scanning(shown, visible, pageSize, start, i, pos, authorized)
      invariant i > 0 ==> total == |shown| && nextPageToken == TokenAt(Ids(shown), pos)
      invariant PageStart(Ids(shown), cursor) == pos
    {
      var page, storeNext, filledAt;
      ghost var end;
      page, storeNext, total := StorePage(store, req, pageSize, cursor, shown, pos);
      authorized, filledAt, end := ScanPage(shown, start, pos, page, storeNext, visible, pageSize, authorized);
      if filledAt.Some? {
        ScanStops(shown, visible, pageSize, start, i, pos, authorized, filledAt, storeNext, end);
        return authorized, filledAt.value, total;
      }
      if storeNext == "" {
        ScanStops(shown, visible, pageSize, start, i, pos, authorized, filledAt, storeNext, end);
        return authorized, "", total;
      }
      ScanGoesOn(shown, visible, pageSize, start, i, pos, authorized, storeNext, end);
      nextPageToken, cursor, pos := storeNext, Some(storeNext), end;
      i := i + 1;
    }
    ScanGivesUp(shown, visible, pageSize, start, pos, authorized);
  }

  lemma TokenEmptyAtEnd(shown: seq<Task>, end: nat)
    requires TokensUsable(shown) && end <= |shown|
    ensures TokenAt(Ids(shown), end) == "" <==> end == |shown|
  {
  }

  method ListTasks(store: InMemoryTaskStore, req: ListTasksRequest, visible: Task -> bool)
    returns (r: Result<ListTasksResponse, A2aError>)
    requires store.Valid()
    requires forall t | t in ShownListing(store.State(), req) :: t.id != ""
    ensures ListTasksAnswer(store.State(), req, visible, r)
  {
    var effective := EffectivePageSize(req.pageSize);
    if effective.None? || !ValidHistoryLength(req.historyLength) {
      return Err(InvalidParams);
    }
    ShownUsable(store.State(), req);
    var authorized, nextPageToken, total :=
      ScanPages(store, req, visible, effective.value, ShownListing(store.State(), req));
    r := Ok(ListTasksResponse(AllTrimmed(authorized, req.historyLength), nextPageToken, effective.value, total));
  }

  lemma CapAhead(shown: seq<Task>, pageSize: nat, start: nat, i: nat, pos: nat)
    requires i < MAX_STORE_PAGES && pos == start + i * pageSize <= |shown|
    ensures Min(pos + pageSize, |shown|) <= CallCap(shown, pageSize, start)
    ensures pos + pageSize == start + (i + 1) * pageSize
  {
    TimesMonotone(pageSize, i + 1, MAX_STORE_PAGES);
  }

  /** Wherever the page-wise loop stops, the plain scan stops too. */
  lemma AnswerReached(shown: seq<Task>, visible: Task -> bool, pageSize: nat, start: nat, end: nat)
    requires start <= end <= CallCap(shown, pageSize, start) && pageSize > 0
    requires || (|Window(shown, visible, start, end)| < pageSize && end == CallCap(shown, pageSize, start))
             || (start < end && |Window(shown, visible, start, end)| == pageSize
                 && |Window(shown, visible, start, end - 1)| < pageSize)
    ensures CallEnd(shown, visible, pageSize, start) == end
  {
    if start < end {
      WindowSplit(shown, visible, start, end - 1, end);
    }
    ScanResumes(shown, visible, pageSize, start, end, CallCap(shown, pageSize, start));
  }

  /** The pages a client collects are what its calls return: one call gives the first
      page, trimmed, and its token gives the remaining ones. */
  lemma AnswersAreClientPages(s: StoreState, req: ListTasksRequest, visible: Task -> bool,
                              r: Result<ListTasksResponse, A2aError>)
    requires ListTasksAnswer(s, req, visible, r) && r.Ok? && TokensUsable(ShownListing(s, req))
    ensures var shown, size := ShownListing(s, req), r.value.pageSize;
            && size > 0
            && var pages := ClientPages(shown, visible, size, req.pageToken);
            && r.value.tasks == AllTrimmed(pages[0], req.historyLength)
            && (if r.value.nextPageToken == "" then pages == [pages[0]]
                else pages == [pages[0]] + ClientPages(shown, visible, size, Some(r.value.nextPageToken)))
  {
  }

  // ---- What the tasks of an answer are ----

  lemma {:induction false} FilterSorted<T>(less: (T, T) -> bool, s: seq<T>, keep: T -> bool)
    requires Sorted(less, s)
    ensures Sorted(less, Filter(s, keep))
  {
    if s != [] {
      var n := |s| - 1;
      FilterSorted(less, s[..n], keep);
      forall i | 0 <= i < |Filter(s[..n], keep)| ensures less(Filter(s[..n], keep)[i], s[n]) {
        FilterSound(s[..n], keep, Filter(s[..n], keep)[i]);
      }
    }
  }

  lemma WindowSorted(shown: seq<Task>, visible: Task -> bool, from: nat, to: nat)
    requires Sorted(Before, shown) && from <= to <= |shown|
    ensures Sorted(Before, Window(shown, visible, from, to))
    ensures forall t | t in Window(shown, visible, from, to) :: t in shown && visible(t)
  {
    FilterSorted(Before, shown[from..to], visible);
    forall t | t in Window(shown, visible, from, to) ensures t in shown && visible(t) {
      FilterSound(shown[from..to], visible, t);
    }
  }

  /** `t` answers for the stored task `u`: its history cut to the most recent messages, as
      many as asked for, and its artifacts only if asked for. */
  predicate AnswersFor(u: Task, req: ListTasksRequest, t: Task) {
    var n := |u.history|;
    var kept := match req.historyLength case None => n case Some(k) => if k < 0 then 0 else Min(k, n);
    t == u.(history := u.history[n - kept..],
            artifacts := if req.includeArtifacts == Some(true) then u.artifacts else [])
  }

  lemma ShownAnswersFor(u: Task, req: ListTasksRequest)
    requires ValidHistoryLength(req.historyLength)
    ensures AnswersFor(u, req, Trimmed(Shown(u, req.includeArtifacts.GetOr(false)), req.historyLength))
  {
    assert u.history[0..] == u.history && u.history[|u.history|..] == [];
  }

  /** A stored task of the tenant that the filters admit and the caller may see. */
  ghost predicate MayList(s: StoreState, req: ListTasksRequest, visible: Task -> bool, u: Task) {
    && GetTask(s, req.tenant, u.id) == Some(u) && u in Listing(s, req.tenant, req)
    && visible(if req.includeArtifacts == Some(true) then u else u.(artifacts := []))
  }

  lemma ShownMeaning(s: StoreState, req: ListTasksRequest, visible: Task -> bool, shown: seq<Task>, t: Task)
    requires s.Valid() && shown == ShownListing(s, req) && t in shown && visible(t)
    ensures exists u :: MayList(s, req, visible, u) && t == Shown(u, req.includeArtifacts.GetOr(false))
  {
    var l := Listing(s, req.tenant, req);
    ListingMeaning(s, req.tenant, req);
    var i :| 0 <= i < |shown| && shown[i] == t;
    assert l[i] in l && t == Shown(l[i], req.includeArtifacts.GetOr(false));
    assert MayList(s, req, visible, l[i]);
  }

  lemma TrimmedMeaning(s: StoreState, req: ListTasksRequest, visible: Task -> bool, found: seq<Task>, t: Task)
    requires s.Valid() && ValidHistoryLength(req.historyLength) && t in AllTrimmed(found, req.historyLength)
    requires forall x | x in found :: x in ShownListing(s, req) && visible(x)
    ensures exists u :: MayList(s, req, visible, u) && AnswersFor(u, req, t)
  {
    var i :| 0 <= i < |found| && t == Trimmed(found[i], req.historyLength);
    assert found[i] in found;
    ShownMeaning(s, req, visible, ShownListing(s, req), found[i]);
    var u :| MayList(s, req, visible, u) && found[i] == Shown(u, req.includeArtifacts.GetOr(false));
    ShownAnswersFor(u, req);
  }

  lemma ShownSorted(s: StoreState, req: ListTasksRequest)
    requires s.Valid()
    ensures Sorted(Before, ShownListing(s, req))
  {
    ListingSorted(s, req.tenant, req);
  }

  lemma TrimmedSorted(found: seq<Task>, historyLength: Option<int>)
    requires Sorted(Before, found)
    ensures var ts := AllTrimmed(found, historyLength);
            forall i, j | 0 <= i < j < |ts| :: ListedBefore(ts[i], ts[j])
  {
    var ts := AllTrimmed(found, historyLength);
    forall i, j | 0 <= i < j < |ts| ensures ListedBefore(ts[i], ts[j]) {
      assert Before(found[i], found[j]);
      BeforeMeaning(ts[i], ts[j]);
    }
  }

  /** One call: it is refused exactly for a page size outside 1 to 100 or a negative history
      length. Otherwise its tasks are stored tasks of the tenant that the filters admit and
      the caller may see, as they were asked for, the most recently updated first; and it
      says how many the filters admit in all. */
  lemma AnswerMeaning(s: StoreState, req: ListTasksRequest, visible: Task -> bool,
                      r: Result<ListTasksResponse, A2aError>)
    requires s.Valid() && ListTasksAnswer(s, req, visible, r)
    ensures r.Err? <==> || (req.pageSize.Some? && !(1 <= req.pageSize.value <= 100))
                        || (req.historyLength.Some? && req.historyLength.value < 0)
    ensures r.Err? ==> r.error == InvalidParams
    ensures r.Ok? ==>
              && r.value.pageSize == req.pageSize.GetOr(50) && |r.value.tasks| <= r.value.pageSize
              && r.value.totalSize == |Listing(s, req.tenant, req)|
              && (forall i, j | 0 <= i < j < |r.value.tasks| :: ListedBefore(r.value.tasks[i], r.value.tasks[j]))
              && (forall t | t in r.value.tasks :: exists u :: MayList(s, req, visible, u) && AnswersFor(u, req, t))
  {
    if r.Ok? {
      var shown := ShownListing(s, req);
      var start := PageStart(Ids(shown), req.pageToken);
      var end := CallEnd(shown, visible, r.value.pageSize, start);
      var found := Window(shown, visible, start, end);
      CallBounds(shown, visible, r.value.pageSize, start);
      ShownSorted(s, req);
      WindowSorted(shown, visible, start, end);
      TrimmedSorted(found, req.historyLength);
      forall t | t in r.value.tasks ensures exists u :: MayList(s, req, visible, u) && AnswersFor(u, req, t) {
        TrimmedMeaning(s, req, visible, found, t);
      }
    }
  }

  /** The store's own pages, followed token by token, partition the shown list. */
  lemma StorePagesPartition(s: StoreState, req: ListTasksRequest, pageSize: nat)
    requires s.Valid() && pageSize > 0
    requires forall t | t in ShownListing(s, req) :: t.id != ""
    ensures var shown := ShownListing(s, req);
            && TokensNonEmpty(Ids(shown))
            && Flatten(Chunks(shown, Ids(shown), pageSize, None)) == shown
  {
    var shown := ShownListing(s, req);
    ShownUsable(s, req);
    forall i | 0 <= i < |shown| ensures Ids(shown)[i] != "" {
      assert shown[i] in shown;
    }
    ChunksPartition(shown, Ids(shown), pageSize, None);
  }

  // ---- Push notification configurations ----

  function ConfigIds(cs: seq<PushConfig>): seq<string> {
    seq(|cs|, i requires 0 <= i < |cs| => cs[i].id.GetOr(""))
  }

  lemma SortedConfigs(cs: seq<PushConfig>)
    requires ConfigsOk(cs)
    ensures var sorted := Sort(ConfigBefore, cs);
            && (forall c :: c in sorted <==> c in cs) && |sorted| == |cs|
            && TokensNonEmpty(ConfigIds(sorted))
            && (forall i | 0 <= i < |sorted| :: sorted[i].id == Some(ConfigIds(sorted)[i]))
  {
    var sorted := Sort(ConfigBefore, cs);
    OrdersAreStrict();
    forall i, j | 0 <= i < j < |cs| ensures ConfigBefore(cs[i], cs[j]) || ConfigBefore(cs[j], cs[i]) {
      StringLessTotal(cs[i].id.value, cs[j].id.value);
    }
    SortSorts(ConfigBefore, cs);
    SortElements(ConfigBefore, cs);
    forall i | 0 <= i < |sorted| ensures sorted[i].id == Some(ConfigIds(sorted)[i]) {
      assert sorted[i] in sorted;
    }
    forall i, j | 0 <= i < j < |sorted| ensures ConfigIds(sorted)[i] != ConfigIds(sorted)[j] {
      assert ConfigBefore(sorted[i], sorted[j]);
      StringLessIrreflexive(ConfigIds(sorted)[i]);
    }
    forall i | 1 <= i < |sorted| ensures ConfigIds(sorted)[i] != "" {
      assert ConfigBefore(sorted[0], sorted[i]);
    }
  }

  /** Following tokens through a task's configurations yields each exactly once. */
  lemma ConfigPagesPartition(cs: seq<PushConfig>, pageSize: nat)
    requires ConfigsOk(cs) && pageSize > 0
    ensures var sorted := Sort(ConfigBefore, cs);
            && TokensNonEmpty(ConfigIds(sorted))
            && var all := Flatten(Chunks(sorted, ConfigIds(sorted), pageSize, None));
            && |all| == |cs|
            && (forall c :: c in all <==> c in cs)
            && (forall i, j | 0 <= i < j < |all| :: all[i].id != all[j].id)
  {
    var sorted := Sort(ConfigBefore, cs);
    SortedConfigs(cs);
    ChunksPartition(sorted, ConfigIds(sorted), pageSize, None);
    assert sorted[0..] == sorted;
    forall i, j | 0 <= i < j < |sorted| ensures sorted[i].id != sorted[j].id {
      assert ConfigIds(sorted)[i] != ConfigIds(sorted)[j];
    }
  }

  function ConfigPage(sorted: seq<PushConfig>, pageSize: nat, token: Option<string>): ListConfigsResponse {
    var ids := ConfigIds(sorted);
    var start := PageStart(ids, token);
    var end := Min(start + pageSize, |ids|);
    ListConfigsResponse(sorted[start..end], TokenAt(ids, end))
  }

  /** The pages a client collects are what its calls return. */
  lemma ConfigAnswersAreChunks(cs: seq<PushConfig>, pageSize: nat, token: Option<string>)
    requires ConfigsOk(cs) && pageSize > 0
    ensures var sorted, page := Sort(ConfigBefore, cs), ConfigPage(Sort(ConfigBefore, cs), pageSize, token);
            && TokensNonEmpty(ConfigIds(sorted))
            && var chunks := Chunks(sorted, ConfigIds(sorted), pageSize, token);
            chunks == [page.configs] + (if page.nextPageToken == "" then []
                                        else Chunks(sorted, ConfigIds(sorted), pageSize, Some(page.nextPageToken)))
  {
    SortedConfigs(cs);
    ChunksUnfold(Sort(ConfigBefore, cs), ConfigIds(Sort(ConfigBefore, cs)), pageSize, token);
  }

  /** The answer is one page of the sorted configurations. An agent without push
      notifications refuses everything, and hidden tasks are refused before the page size
      is looked at. */
  ghost predicate ListConfigsAnswer(s: StoreState, agent: AgentSupport, req: ListConfigsRequest, visible: Task -> bool,
                                    r: Result<ListConfigsResponse, A2aError>) {
    var task := GetTask(s, req.tenant, req.taskId);
    var pageSize := EffectivePageSize(req.pageSize);
    if !agent.Push() then r == Err(PushNotificationNotSupported)
    else if task.Some? && !visible(task.value) then r == Err(NotAuthorized)
    else if pageSize.None? then r == Err(InvalidParams)
    else r == Ok(ConfigPage(Sort(ConfigBefore, ConfigsFor(s, req.tenant, req.taskId)), pageSize.value, req.pageToken))
  }

  ghost predicate HasLesserId(c: PushConfig, d: PushConfig) {
    c.id.Some? && d.id.Some? && exists k: nat :: FirstDifference(c.id.value, d.id.value, k)
  }

  ghost predicate InIdOrder(cs: seq<PushConfig>) {
    forall i, j | 0 <= i < j < |cs| :: HasLesserId(cs[i], cs[j])
  }

  /** What an answer is: the three reasons to refuse, in the stated order, and otherwise
      configurations of the task, by id, as many as fit unless there are no more. */
  lemma ConfigAnswerMeaning(s: StoreState, agent: AgentSupport, req: ListConfigsRequest, visible: Task -> bool,
                            r: Result<ListConfigsResponse, A2aError>)
    requires s.Valid() && ListConfigsAnswer(s, agent, req, visible, r)
    ensures var task := GetTask(s, req.tenant, req.taskId);
            var hidden := task.Some? && !visible(task.value);
            var badSize := req.pageSize.Some? && !(1 <= req.pageSize.value <= 100);
            && (agent.pushNotifications != Some(true) ==> r == Err(PushNotificationNotSupported))
            && (agent.pushNotifications == Some(true) && hidden ==> r == Err(NotAuthorized))
            && (agent.pushNotifications == Some(true) && !hidden && badSize ==> r == Err(InvalidParams))
            && (r.Ok? <==> agent.pushNotifications == Some(true) && !hidden && !badSize)
    ensures r.Ok? ==>
              var cs, size := r.value.configs, req.pageSize.GetOr(50);
              && |cs| <= size && (r.value.nextPageToken != "" ==> |cs| == size)
              && (forall c | c in cs :: c in ConfigsFor(s, req.tenant, req.taskId))
              && InIdOrder(cs)
  {
    if r.Ok? {
      PageInOrder(ConfigsFor(s, req.tenant, req.taskId), req.pageSize.GetOr(50), req.pageToken);
    }
  }

  lemma PageInOrder(cs: seq<PushConfig>, size: nat, token: Option<string>)
    requires ConfigsOk(cs)
    ensures var page := ConfigPage(Sort(ConfigBefore, cs), size, token);
            && |page.configs| <= size && (page.nextPageToken != "" ==> |page.configs| == size)
            && (forall c | c in page.configs :: c in cs)
            && InIdOrder(page.configs)
  {
    var sorted := Sort(ConfigBefore, cs);
    ConfigsInOrder(cs);
    SliceInOrder(sorted, PageStart(ConfigIds(sorted), token),
                 Min(PageStart(ConfigIds(sorted), token) + size, |ConfigIds(sorted)|));
  }

  lemma SliceInOrder(cs: seq<PushConfig>, from: nat, to: nat)
    requires InIdOrder(cs) && from <= to <= |cs|
    ensures InIdOrder(cs[from..to]) && forall c | c in cs[from..to] :: c in cs
  {
    forall i, j | 0 <= i < j < to - from ensures HasLesserId(cs[from..to][i], cs[from..to][j]) {
      assert HasLesserId(cs[from + i], cs[from + j]);
    }
  }

  lemma ConfigsInOrder(cs: seq<PushConfig>)
    requires ConfigsOk(cs)
    ensures var sorted := Sort(ConfigBefore, cs);
            && (forall c :: c in sorted <==> c in cs) && |sorted| == |cs|
            && InIdOrder(sorted)
  {
    var sorted := Sort(ConfigBefore, cs);
    OrdersAreStrict();
    SortedConfigs(cs);
    forall i, j | 0 <= i < j < |cs| ensures ConfigBefore(cs[i], cs[j]) || ConfigBefore(cs[j], cs[i]) {
      StringLessTotal(cs[i].id.value, cs[j].id.value);
    }
    SortSorts(ConfigBefore, cs);
    forall i, j | 0 <= i < j < |sorted| ensures HasLesserId(sorted[i], sorted[j]) {
      StringLessMeaning(sorted[i].id.value, sorted[j].id.value);
    }
  }

  method ListPushNotificationConfigs(store: InMemoryTaskStore, agent: AgentSupport, req: ListConfigsRequest,
                                     visible: Task -> bool)
    returns (r: Result<ListConfigsResponse, A2aError>)
    requires store.Valid()
    ensures ListConfigsAnswer(store.State(), agent, req, visible, r)
  {
    if !agent.Push() {
      return Err(PushNotificationNotSupported);
    }
    var task := store.Get(req.tenant, req.taskId);
    if task.Some? && !visible(task.value) {
      return Err(NotAuthorized);
    }
    var configs := store.ListPushConfigs(req.tenant, req.taskId);
    var sorted := Sort(ConfigBefore, configs);
    var pageSize := EffectivePageSize(req.pageSize);
    if pageSize.None? {
      return Err(InvalidParams);
    }
    r := Ok(ConfigPage(sorted, pageSize.value, req.pageToken));
  }
}
