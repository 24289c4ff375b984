/** The in-memory task store: task records and push notification configurations,
    each under a tenant. */
module Store {
  import opened Types
  import opened Requests
  import opened Sequences
  import opened Ordering
  import opened Paging

  datatype Key = Key(tenant: string, id: string)

  /** No tenant and the empty tenant are one namespace. */
  function TenantKey(tenant: Option<string>): string {
    tenant.GetOr("")
  }

  datatype StoreState = StoreState(tasks: map<Key, Task>, configs: map<Key, seq<PushConfig>>) {
    /** Records sit under their own id; configurations have pairwise distinct ids. */
    ghost predicate Valid() {
      && (forall k | k in tasks :: tasks[k].id == k.id)
      && (forall k | k in configs :: ConfigsOk(configs[k]))
    }
  }

  const EmptyStore := StoreState(map[], map[])

  // ---- Tasks ----

  function GetTask(s: StoreState, tenant: Option<string>, id: string): Option<Task> {
    var k := Key(TenantKey(tenant), id);
    if k in s.tasks then Some(s.tasks[k]) else None
  }

  function PutTask(s: StoreState, tenant: Option<string>, task: Task): StoreState {
    s.(tasks := s.tasks[Key(TenantKey(tenant), task.id) := task])
  }

  predicate Matches(t: Task, filter: ListTasksRequest) {
    && (filter.contextId.Some? ==> t.contextId == filter.contextId)
    && (filter.status.Some? ==> t.status.state == filter.status.value)
    && (filter.statusTimestampAfter.Some? ==>
          t.status.timestamp.Some? && !Earlier(t.status.timestamp.value, filter.statusTimestampAfter.value))
  }

  function Matching(s: StoreState, tenant: Option<string>, filter: ListTasksRequest): set<Task> {
    set k | k in s.tasks && k.tenant == TenantKey(tenant) && Matches(s.tasks[k], filter) :: s.tasks[k]
  }

  ghost predicate IsListing(l: seq<Task>, tasks: set<Task>) {
    Sorted(Before, l) && forall t :: t in l <==> t in tasks
  }

  /** The elements of a set of tasks, sorted. */
  ghost function Enumerate(tasks: set<Task>): seq<Task> {
    if tasks == {} then []
    else
      var t :| t in tasks;
      Insert(Before, t, Enumerate(tasks - {t}))
  }

  lemma {:induction false} EnumerateSorts(tasks: set<Task>)
    requires forall a, b | a in tasks && b in tasks && a.id == b.id :: a == b
    ensures IsListing(Enumerate(tasks), tasks)
  {
    if tasks != {} {
      var t :| t in tasks && Enumerate(tasks) == Insert(Before, t, Enumerate(tasks - {t}));
      var rest := Enumerate(tasks - {t});
      EnumerateSorts(tasks - {t});
      OrdersAreStrict();
      forall x | x in rest ensures Before(t, x) || Before(x, t) {
        BeforeTotal(t, x);
      }
      InsertSorted(Before, t, rest);
      InsertElements(Before, t, rest);
    }
  }

  /** The one sorted enumeration of the tasks a filter matches. */
  ghost function Listing(s: StoreState, tenant: Option<string>, filter: ListTasksRequest): seq<Task> {
    Enumerate(Matching(s, tenant, filter))
  }

  lemma ListingSorted(s: StoreState, tenant: Option<string>, filter: ListTasksRequest)
    requires s.Valid()
    ensures IsListing(Listing(s, tenant, filter), Matching(s, tenant, filter))
  {
    EnumerateSorts(Matching(s, tenant, filter));
  }

  /** The tenant's stored tasks that satisfy every filter given, most recently updated
      first. */
  lemma ListingMeaning(s: StoreState, tenant: Option<string>, filter: ListTasksRequest)
    requires s.Valid()
    ensures var l := Listing(s, tenant, filter);
            && (forall t :: t in l <==>
                  && GetTask(s, tenant, t.id) == Some(t)
                  && (filter.contextId.None? || t.contextId == filter.contextId)
                  && (filter.status.None? || filter.status == Some(t.status.state))
                  && (filter.statusTimestampAfter.Some? ==>
                        && t.status.timestamp.Some?
                        && var at, after := t.status.timestamp.value, filter.statusTimestampAfter.value;
                           at.seconds > after.seconds || (at.seconds == after.seconds && at.nanos >= after.nanos)))
            && (forall i, j | 0 <= i < j < |l| :: ListedBefore(l[i], l[j]))
  {
    var l := Listing(s, tenant, filter);
    ListingSorted(s, tenant, filter);
    forall t ensures t in Matching(s, tenant, filter) <==> GetTask(s, tenant, t.id) == Some(t) && Matches(t, filter) {
      if t in Matching(s, tenant, filter) {
        var k :| k in s.tasks && k.tenant == TenantKey(tenant) && s.tasks[k] == t;
        assert k == Key(TenantKey(tenant), t.id);
      }
    }
    forall i, j | 0 <= i < j < |l| ensures ListedBefore(l[i], l[j]) {
      BeforeMeaning(l[i], l[j]);
    }
  }

  /** Any sorted enumeration of the matching tasks is the listing: the hash map's
      iteration order cannot show. */
  lemma ListingUnique(s: StoreState, tenant: Option<string>, filter: ListTasksRequest, l: seq<Task>)
    requires s.Valid() && IsListing(l, Matching(s, tenant, filter))
    ensures l == Listing(s, tenant, filter)
  {
    ListingSorted(s, tenant, filter);
    OrdersAreStrict();
    SortedUnique(Before, l, Listing(s, tenant, filter));
  }

  lemma SortIsListing(s: StoreState, tenant: Option<string>, filter: ListTasksRequest, found: seq<Task>)
    requires s.Valid() && DistinctTaskIds(found)
    requires forall t :: t in found <==> t in Matching(s, tenant, filter)
    ensures Sort(Before, found) == Listing(s, tenant, filter)
  {
    OrdersAreStrict();
    DistinctComparable(found);
    SortSorts(Before, found);
    SortElements(Before, found);
    ListingUnique(s, tenant, filter, Sort(Before, found));
  }

  lemma ListingDistinct(s: StoreState, tenant: Option<string>, filter: ListTasksRequest)
    requires s.Valid()
    ensures Distinct(Ids(Listing(s, tenant, filter)))
  {
    var l := Listing(s, tenant, filter);
    ListingSorted(s, tenant, filter);
    forall i, j | 0 <= i < j < |l| ensures l[i].id != l[j].id {
      assert l[i] in l && l[j] in l && Before(l[i], l[j]);
      BeforeIrreflexive(l[i]);
    }
  }

  function Ids(l: seq<Task>): seq<string> {
    seq(|l|, i requires 0 <= i < |l| => l[i].id)
  }

  function Shown(t: Task, includeArtifacts: bool): Task {
    if includeArtifacts then t else t.(artifacts := [])
  }

  function AllShown(l: seq<Task>, includeArtifacts: bool): seq<Task> {
    seq(|l|, i requires 0 <= i < |l| => Shown(l[i], includeArtifacts))
  }

  function ClampedPageSize(pageSize: Option<int>): nat {
    var n := pageSize.GetOr(50);
    if n < 1 then 1 else if n > 100 then 100 else n
  }

  /** Up to 100 tasks of a list, 50 unless asked otherwise, from where the token says, with
      their artifacts only if asked for. */
  predicate IsPageOf(l: seq<Task>, filter: ListTasksRequest, page: seq<Task>) {
    var start, size := PageStart(Ids(l), filter.pageToken), filter.pageSize.GetOr(50);
    && start <= |l|
    && |page| == Min(if size < 1 then 1 else Min(size, 100), |l| - start)
    && (forall i | 0 <= i < |page| ::
          page[i] == if filter.includeArtifacts == Some(true) then l[start + i] else l[start + i].(artifacts := []))
  }

  lemma PageMeaning(l: seq<Task>, filter: ListTasksRequest, page: seq<Task>)
    requires var start := PageStart(Ids(l), filter.pageToken);
             page == AllShown(l[start..Min(start + ClampedPageSize(filter.pageSize), |l|)],
                              filter.includeArtifacts.GetOr(false))
    ensures IsPageOf(l, filter, page)
  {
  }

  // ---- Push notification configurations ----

  ghost predicate ConfigsOk(cs: seq<PushConfig>) {
    && (forall i | 0 <= i < |cs| :: cs[i].id.Some?)
    && (forall i, j | 0 <= i < j < |cs| :: cs[i].id != cs[j].id)
  }

  function ConfigsFor(s: StoreState, tenant: Option<string>, taskId: string): seq<PushConfig> {
    var k := Key(TenantKey(tenant), taskId);
    if k in s.configs then s.configs[k] else []
  }

  /** The plain map a configuration list stands for. */
  ghost function ConfigMap(cs: seq<PushConfig>): map<string, PushConfig>
    requires ConfigsOk(cs)
  {
    if cs == [] then map[]
    else
      var n := |cs| - 1;
      ConfigMap(cs[..n])[cs[n].id.value := cs[n]]
  }

  lemma {:induction false} ConfigMapKeys(cs: seq<PushConfig>)
    requires ConfigsOk(cs)
    ensures forall id :: id in ConfigMap(cs) <==> exists i | 0 <= i < |cs| :: cs[i].id == Some(id)
    ensures forall i | 0 <= i < |cs| :: cs[i].id.value in ConfigMap(cs) && ConfigMap(cs)[cs[i].id.value] == cs[i]
  {
    if cs != [] {
      var n := |cs| - 1;
      ConfigMapKeys(cs[..n]);
      assert cs[n].id == Some(cs[n].id.value);
      forall id | id in ConfigMap(cs[..n]) ensures exists i | 0 <= i < |cs| :: cs[i].id == Some(id) {
        var i :| 0 <= i < n && cs[..n][i].id == Some(id);
        assert cs[i].id == Some(id);
      }
      forall i | 0 <= i < n ensures cs[i].id.value in ConfigMap(cs) && ConfigMap(cs)[cs[i].id.value] == cs[i] {
        assert cs[..n][i] == cs[i];
      }
    }
  }

  function OtherIds(cs: seq<PushConfig>, id: Option<string>): seq<PushConfig> {
    Filter(cs, (c: PushConfig) => c.id != id)
  }

  lemma OtherIdsOk(cs: seq<PushConfig>, id: Option<string>)
    requires ConfigsOk(cs)
    ensures ConfigsOk(OtherIds(cs, id))
    ensures forall c :: c in OtherIds(cs, id) <==> c in cs && c.id != id
  {
    var keep := (c: PushConfig) => c.id != id;
    var r := OtherIds(cs, id);
    forall c ensures c in r <==> c in cs && c.id != id {
      if c in r {
        FilterSound(cs, keep, c);
      }
      if c in cs && c.id != id {
        FilterKeeps(cs, keep, c);
      }
    }
    FilterDistinct(cs, keep);
    forall i, j | 0 <= i < j < |r| ensures r[i].id != r[j].id {
      assert r[i] in r && r[j] in r;
      var a :| 0 <= a < |cs| && cs[a] == r[i];
      var b :| 0 <= b < |cs| && cs[b] == r[j];
    }
    forall i | 0 <= i < |r| ensures r[i].id.Some? {
      assert r[i] in r;
    }
  }

  lemma {:induction false} ConfigMapFromElements(cs: seq<PushConfig>, m: map<string, PushConfig>)
    requires ConfigsOk(cs)
    requires forall id :: id in m <==> exists c | c in cs :: c.id == Some(id)
    requires forall c | c in cs :: c.id.Some? ==> c.id.value in m && m[c.id.value] == c
    ensures ConfigMap(cs) == m
  {
    ConfigMapKeys(cs);
    forall id ensures id in m <==> id in ConfigMap(cs) {
      if id in m {
        var c :| c in cs && c.id == Some(id);
      }
      if id in ConfigMap(cs) {
        var i :| 0 <= i < |cs| && cs[i].id == Some(id);
        assert cs[i] in cs;
      }
    }
    forall id | id in m ensures m[id] == ConfigMap(cs)[id] {
      var c :| c in cs && c.id == Some(id);
      var i :| 0 <= i < |cs| && cs[i] == c;
      assert cs[i].id.value == id;
    }
  }

  /** Storing a configuration is a map update. */
  lemma PutConfigRefinesMap(cs: seq<PushConfig>, c: PushConfig)
    requires ConfigsOk(cs) && c.id.Some?
    ensures ConfigsOk(OtherIds(cs, c.id) + [c])
    ensures ConfigMap(OtherIds(cs, c.id) + [c]) == ConfigMap(cs)[c.id.value := c]
  {
    var rest := OtherIds(cs, c.id);
    var after := rest + [c];
    OtherIdsOk(cs, c.id);
    assert forall i | 0 <= i < |rest| :: rest[i] in rest;
    ConfigMapKeys(cs);
    var m := ConfigMap(cs)[c.id.value := c];
    ConfigMembers(cs);
    assert c in after;
    forall id ensures id in m <==> exists x | x in after :: x.id == Some(id) {
      if id in m && id != c.id.value {
        var x :| x in cs && x.id == Some(id);
        assert x in after;
      }
    }
    ConfigMapFromElements(after, m);
  }

  lemma ConfigMembers(cs: seq<PushConfig>)
    requires ConfigsOk(cs)
    ensures forall id :: id in ConfigMap(cs) <==> exists x | x in cs :: x.id == Some(id)
    ensures forall x | x in cs :: x.id.Some? && x.id.value in ConfigMap(cs) && ConfigMap(cs)[x.id.value] == x
  {
    ConfigMapKeys(cs);
    forall id | id in ConfigMap(cs) ensures exists x | x in cs :: x.id == Some(id) {
      var i :| 0 <= i < |cs| && cs[i].id == Some(id);
      assert cs[i] in cs;
    }
  }

  /** Deleting is removing a key, and it changes the list exactly if the key was there. */
  lemma DeleteConfigRefinesMap(cs: seq<PushConfig>, id: string)
    requires ConfigsOk(cs)
    ensures ConfigsOk(OtherIds(cs, Some(id)))
    ensures ConfigMap(OtherIds(cs, Some(id))) == ConfigMap(cs) - {id}
    ensures |OtherIds(cs, Some(id))| != |cs| <==> id in ConfigMap(cs)
  {
    var rest := OtherIds(cs, Some(id));
    OtherIdsOk(cs, Some(id));
    ConfigMembers(cs);
    var m := ConfigMap(cs) - {id};
    forall other ensures other in m <==> exists x | x in rest :: x.id == Some(other) {
      if other in m {
        var x :| x in cs && x.id == Some(other);
        assert x in rest;
      }
    }
    ConfigMapFromElements(rest, m);
    if id in ConfigMap(cs) {
      var x :| x in cs && x.id == Some(id);
      FilterShrinks(cs, (c: PushConfig) => c.id != Some(id), x);
    } else {
      forall i | 0 <= i < |cs| ensures cs[i].id != Some(id) {
        assert cs[i] in cs;
      }
      FilterAll(cs, (c: PushConfig) => c.id != Some(id));
    }
  }

  function FindConfig(cs: seq<PushConfig>, id: string): Option<PushConfig> {
    if cs == [] then None
    else if cs[0].id == Some(id) then Some(cs[0])
    else FindConfig(cs[1..], id)
  }

  lemma {:induction false} FindConfigFinds(cs: seq<PushConfig>, id: string)
    ensures FindConfig(cs, id).Some? ==> FindConfig(cs, id).value in cs && FindConfig(cs, id).value.id == Some(id)
    ensures FindConfig(cs, id).None? ==> forall c | c in cs :: c.id != Some(id)
  {
    if cs != [] && cs[0].id != Some(id) {
      FindConfigFinds(cs[1..], id);
    }
  }

  /** Looking a configuration up is a map lookup. */
  lemma FindConfigRefinesMap(cs: seq<PushConfig>, id: string)
    requires ConfigsOk(cs)
    ensures FindConfig(cs, id) == if id in ConfigMap(cs) then Some(ConfigMap(cs)[id]) else None
  {
    FindConfigFinds(cs, id);
    ConfigMembers(cs);
  }

  function WithId(c: PushConfig, freshId: string): PushConfig {
    if c.id.None? then c.(id := Some(freshId)) else c
  }

  function PutConfig(s: StoreState, tenant: Option<string>, c: PushConfig): StoreState {
    var taskId := c.taskId.GetOr("");
    s.(configs := s.configs[Key(TenantKey(tenant), taskId) := OtherIds(ConfigsFor(s, tenant, taskId), c.id) + [c]])
  }

  function DeleteConfig(s: StoreState, tenant: Option<string>, taskId: string, id: string): StoreState {
    var k := Key(TenantKey(tenant), taskId);
    if k in s.configs then s.(configs := s.configs[k := OtherIds(s.configs[k], Some(id))]) else s
  }

  lemma EntryKeepsValid(s: StoreState, k: Key, cs: seq<PushConfig>)
    requires s.Valid() && ConfigsOk(cs)
    ensures s.(configs := s.configs[k := cs]).Valid()
  {
  }

  lemma DeleteConfigEntry(s: StoreState, tenant: Option<string>, taskId: string, id: string)
    ensures ConfigsFor(DeleteConfig(s, tenant, taskId, id), tenant, taskId)
         == OtherIds(ConfigsFor(s, tenant, taskId), Some(id))
  {
  }

  lemma DeleteConfigValid(s: StoreState, tenant: Option<string>, taskId: string, id: string)
    requires s.Valid() && ConfigsOk(OtherIds(ConfigsFor(s, tenant, taskId), Some(id)))
    ensures DeleteConfig(s, tenant, taskId, id).Valid()
  {
    var k := Key(TenantKey(tenant), taskId);
    if k in s.configs {
      EntryKeepsValid(s, k, OtherIds(s.configs[k], Some(id)));
    }
  }

  lemma DeleteConfigEffect(s: StoreState, tenant: Option<string>, taskId: string, id: string)
    requires s.Valid()
    ensures var t := DeleteConfig(s, tenant, taskId, id);
            && t.Valid()
            && ConfigMap(ConfigsFor(t, tenant, taskId)) == ConfigMap(ConfigsFor(s, tenant, taskId)) - {id}
            && (|ConfigsFor(t, tenant, taskId)| != |ConfigsFor(s, tenant, taskId)|
                <==> id in ConfigMap(ConfigsFor(s, tenant, taskId)))
  {
    DeleteConfigRefinesMap(ConfigsFor(s, tenant, taskId), id);
    DeleteConfigEntry(s, tenant, taskId, id);
    DeleteConfigValid(s, tenant, taskId, id);
  }

  /** The configurations of other tasks, and of other tenants, are as they were. */
  ghost predicate SameConfigsElsewhere(s: StoreState, t: StoreState, tenant: Option<string>, taskId: string) {
    forall other: Option<string>, id | other.GetOr("") != tenant.GetOr("") || id != taskId ::
      ConfigsFor(t, other, id) == ConfigsFor(s, other, id)
  }

  lemma PutConfigElsewhere(s: StoreState, tenant: Option<string>, c: PushConfig)
    ensures SameConfigsElsewhere(s, PutConfig(s, tenant, c), tenant, c.taskId.GetOr(""))
  {
  }

  lemma DeleteConfigElsewhere(s: StoreState, tenant: Option<string>, taskId: string, id: string)
    ensures SameConfigsElsewhere(s, DeleteConfig(s, tenant, taskId, id), tenant, taskId)
  {
  }

  class InMemoryTaskStore {
    var tasks: map<Key, Task>
    var configs: map<Key, seq<PushConfig>>

    function State(): StoreState
      reads this
    {
      StoreState(tasks, configs)
    }

    ghost predicate Valid()
      reads this
    {
      State().Valid()
    }

    constructor ()
      ensures Valid() && State() == EmptyStore
    {
      tasks, configs := map[], map[];
    }

    method Get(tenant: Option<string>, id: string) returns (t: Option<Task>)
      ensures t == GetTask(State(), tenant, id)
    {
      var k := Key(TenantKey(tenant), id);
      if k in tasks {
        t := Some(tasks[k]);
      } else {
        t := None;
      }
    }

    method Put(tenant: Option<string>, task: Task)
      requires Valid()
      modifies this
      ensures Valid() && State() == PutTask(old(State()), tenant, task)
      ensures forall other: Option<string>, id ::
                GetTask(State(), other, id)
                == if other.GetOr("") == tenant.GetOr("") && id == task.id then Some(task)
                   else GetTask(old(State()), other, id)
    {
      tasks := tasks[Key(TenantKey(tenant), task.id) := task];
    }

    /** The matching tasks, in whatever order the map yields them. */
    method CollectMatching(tenant: Option<string>, filter: ListTasksRequest) returns (matching: seq<Task>)
      requires Valid()
      ensures DistinctTaskIds(matching)
      ensures forall t :: t in matching <==> t in Matching(State(), tenant, filter)
    {
      matching := [];
      var keys := tasks.Keys;
      while keys != {}
        invariant keys <= tasks.Keys
        invariant forall t :: t in matching <==>
                    exists k | k in tasks && k !in keys ::
                      tasks[k] == t && k.tenant == TenantKey(tenant) && Matches(t, filter)
        invariant DistinctTaskIds(matching)
        decreases keys
      {
        var k :| k in keys;
        keys := keys - {k};
        if k.tenant == TenantKey(tenant) && Matches(tasks[k], filter) {
          forall i | 0 <= i < |matching| ensures matching[i].id != k.id {
            assert matching[i] in matching;
          }
          matching := matching + [tasks[k]];
        }
      }
    }

    /** Collects and sorts the matching tasks, cuts out one page and drops artifacts
        that were not asked for. */
    method List(tenant: Option<string>, filter: ListTasksRequest)
      returns (page: seq<Task>, nextPageToken: string, total: nat)
      requires Valid()
      ensures var l := Listing(State(), tenant, filter);
              var start := PageStart(Ids(l), filter.pageToken);
              var end := Min(start + ClampedPageSize(filter.pageSize), |l|);
              && page == AllShown(l[start..end], filter.includeArtifacts.GetOr(false))
              && nextPageToken == TokenAt(Ids(l), end)
              && total == |l|
      ensures IsPageOf(Listing(State(), tenant, filter), filter, page)
    {
      var matching := CollectMatching(tenant, filter);
      var sorted := Sort(Before, matching);
      SortIsListing(State(), tenant, filter, matching);
      total := |sorted|;
      page, nextPageToken := CutPage(sorted, filter);
      PageMeaning(sorted, filter, page);
    }

    static method CutPage(sorted: seq<Task>, filter: ListTasksRequest)
      returns (page: seq<Task>, nextPageToken: string)
      ensures var start := PageStart(Ids(sorted), filter.pageToken);
              var end := Min(start + ClampedPageSize(filter.pageSize), |sorted|);
              && page == AllShown(sorted[start..end], filter.includeArtifacts.GetOr(false))
              && nextPageToken == TokenAt(Ids(sorted), end)
    {
      var start := PageStart(Ids(sorted), filter.pageToken);
      var end := Min(start + ClampedPageSize(filter.pageSize), |sorted|);
      nextPageToken := TokenAt(Ids(sorted), end);
      page := sorted[start..end];
      if !filter.includeArtifacts.GetOr(false) {
        ghost var cut := page;
        for i := 0 to |page|
          invariant |page| == |cut|
          invariant forall j | 0 <= j < i :: page[j] == Shown(cut[j], false)
          invariant forall j | i <= j < |page| :: page[j] == cut[j]
        {
          page := page[i := page[i].(artifacts := [])];
        }
      }
    }

    method PutPushConfig(tenant: Option<string>, config: PushConfig, freshId: string) returns (stored: PushConfig)
      requires Valid()
      modifies this
      ensures Valid() && stored == WithId(config, freshId) && State() == PutConfig(old(State()), tenant, stored)
      ensures stored == config.(id := Some(config.id.GetOr(freshId)))
      ensures ConfigMap(ConfigsFor(State(), tenant, config.taskId.GetOr("")))
           == old(ConfigMap(ConfigsFor(State(), tenant, config.taskId.GetOr(""))))[stored.id.value := stored]
      ensures SameConfigsElsewhere(old(State()), State(), tenant, config.taskId.GetOr(""))
    {
      stored := WithId(config, freshId);
      var taskId := config.taskId.GetOr("");
      PutConfigRefinesMap(ConfigsFor(State(), tenant, taskId), stored);
      PutConfigElsewhere(State(), tenant, stored);
      var entry := OtherIds(ConfigsFor(State(), tenant, taskId), stored.id);
      configs := configs[Key(TenantKey(tenant), taskId) := entry + [stored]];
    }

    method GetPushConfig(tenant: Option<string>, taskId: string, id: string) returns (c: Option<PushConfig>)
      requires Valid()
      ensures var m := ConfigMap(ConfigsFor(State(), tenant, taskId));
              c == if id in m then Some(m[id]) else None
    {
      FindConfigRefinesMap(ConfigsFor(State(), tenant, taskId), id);
      c := FindConfig(ConfigsFor(State(), tenant, taskId), id);
    }

    method ListPushConfigs(tenant: Option<string>, taskId: string) returns (cs: seq<PushConfig>)
      requires Valid()
      ensures cs == ConfigsFor(State(), tenant, taskId) && ConfigsOk(cs)
      ensures forall c :: c in cs <==> c in ConfigMap(cs).Values
    {
      cs := ConfigsFor(State(), tenant, taskId);
      ConfigMembers(cs);
    }

    method DeletePushConfig(tenant: Option<string>, taskId: string, id: string) returns (removed: bool)
      requires Valid()
      modifies this
      ensures Valid() && State() == DeleteConfig(old(State()), tenant, taskId, id)
      ensures removed <==> id in old(ConfigMap(ConfigsFor(State(), tenant, taskId)))
      ensures ConfigMap(ConfigsFor(State(), tenant, taskId))
           == old(ConfigMap(ConfigsFor(State(), tenant, taskId))) - {id}
      ensures SameConfigsElsewhere(old(State()), State(), tenant, taskId)
    {
      ghost var s := State();
      DeleteConfigEffect(s, tenant, taskId, id);
      DeleteConfigElsewhere(s, tenant, taskId, id);
      var k := Key(TenantKey(tenant), taskId);
      removed := false;
      if k in configs {
        var before := |configs[k]|;
        configs := configs[k := OtherIds(configs[k], Some(id))];
        removed := |configs[k]| != before;
      }
      assert State() == DeleteConfig(s, tenant, taskId, id);
    }
  }

  // ---- Tenants ----

  datatype StoreOp =
    | PutTaskOp(task: Task)
    | PutConfigOp(config: PushConfig, freshId: string)
    | DeleteConfigOp(taskId: string, id: string)

  function AfterStoreOp(s: StoreState, tenant: Option<string>, op: StoreOp): StoreState {
    match op
    case PutTaskOp(task) => PutTask(s, tenant, task)
    case PutConfigOp(config, freshId) => PutConfig(s, tenant, WithId(config, freshId))
    case DeleteConfigOp(taskId, id) => DeleteConfig(s, tenant, taskId, id)
  }

  /** One of many operations, under the tenant it was asked for. */
  datatype TenantOp = TenantOp(tenant: Option<string>, op: StoreOp)

  function AfterStoreOps(s: StoreState, ops: seq<TenantOp>): StoreState {
    if ops == [] then s
    else
      var n := |ops| - 1;
      AfterStoreOp(AfterStoreOps(s, ops[..n]), ops[n].tenant, ops[n].op)
  }

  lemma AfterOneMore(s: StoreState, ops: seq<TenantOp>, op: TenantOp)
    ensures AfterStoreOps(s, ops + [op]) == AfterStoreOp(AfterStoreOps(s, ops), op.tenant, op.op)
  {
    assert (ops + [op])[..|ops|] == ops;
  }

  lemma PutConfigValid(s: StoreState, tenant: Option<string>, c: PushConfig)
    requires s.Valid() && c.id.Some?
    ensures PutConfig(s, tenant, c).Valid()
  {
    var taskId := c.taskId.GetOr("");
    PutConfigRefinesMap(ConfigsFor(s, tenant, taskId), c);
    EntryKeepsValid(s, Key(TenantKey(tenant), taskId), OtherIds(ConfigsFor(s, tenant, taskId), c.id) + [c]);
  }

  lemma StoreOpValid(s: StoreState, tenant: Option<string>, op: StoreOp)
    requires s.Valid()
    ensures AfterStoreOp(s, tenant, op).Valid()
  {
    match op
    case PutTaskOp(_) =>
    case PutConfigOp(config, freshId) =>
      PutConfigValid(s, tenant, WithId(config, freshId));
    case DeleteConfigOp(taskId, id) =>
      DeleteConfigEffect(s, tenant, taskId, id);
  }

  /** Every store reached by any operations, under whatever tenants, keeps configuration
      ids set and distinct. */
  lemma {:induction false} StoreOpsValid(s: StoreState, ops: seq<TenantOp>)
    requires s.Valid()
    ensures AfterStoreOps(s, ops).Valid()
  {
    if ops != [] {
      var n := |ops| - 1;
      StoreOpsValid(s, ops[..n]);
      StoreOpValid(AfterStoreOps(s, ops[..n]), ops[n].tenant, ops[n].op);
    }
  }

  ghost predicate SameView(s: StoreState, t: StoreState, tenant: string) {
    forall k: Key | k.tenant == tenant ::
      && (k in s.tasks <==> k in t.tasks)
      && (k in s.tasks ==> s.tasks[k] == t.tasks[k])
      && (k in s.configs <==> k in t.configs)
      && (k in s.configs ==> s.configs[k] == t.configs[k])
  }

  lemma OtherTenantStays(s: StoreState, op: TenantOp, tenant: string)
    requires TenantKey(op.tenant) != tenant
    ensures SameView(AfterStoreOp(s, op.tenant, op.op), s, tenant)
  {
  }

  lemma SameOpSameView(s: StoreState, t: StoreState, op: TenantOp)
    requires SameView(s, t, TenantKey(op.tenant))
    ensures SameView(AfterStoreOp(s, op.tenant, op.op), AfterStoreOp(t, op.tenant, op.op), TenantKey(op.tenant))
  {
    var same := TenantKey(op.tenant);
    match op.op
    case PutTaskOp(_) =>
    case PutConfigOp(config, _) =>
      assert Key(same, config.taskId.GetOr("")) in s.configs <==> Key(same, config.taskId.GetOr("")) in t.configs;
    case DeleteConfigOp(taskId, _) =>
      assert Key(same, taskId) in s.configs <==> Key(same, taskId) in t.configs;
  }

  function Under(tenant: string): TenantOp -> bool {
    (o: TenantOp) => o.tenant.GetOr("") == tenant
  }

  /** What a tenant sees is what its own operations made of it. */
  lemma {:induction false} OwnOpsView(s: StoreState, ops: seq<TenantOp>, tenant: string)
    ensures SameView(AfterStoreOps(s, ops), AfterStoreOps(s, Filter(ops, Under(tenant))), tenant)
  {
    if ops != [] {
      var n := |ops| - 1;
      OwnOpsView(s, ops[..n], tenant);
      assert TenantKey(ops[n].tenant) == ops[n].tenant.GetOr("");
      if Under(tenant)(ops[n]) {
        SameOpSameView(AfterStoreOps(s, ops[..n]), AfterStoreOps(s, Filter(ops[..n], Under(tenant))), ops[n]);
        AfterOneMore(s, Filter(ops[..n], Under(tenant)), ops[n]);
      } else {
        OtherTenantStays(AfterStoreOps(s, ops[..n]), ops[n], tenant);
        assert Filter(ops, Under(tenant)) == Filter(ops[..n], Under(tenant));
      }
    }
  }

  lemma SameViewSameListing(s: StoreState, t: StoreState, tenant: Option<string>, filter: ListTasksRequest)
    requires SameView(s, t, TenantKey(tenant))
    ensures Listing(s, tenant, filter) == Listing(t, tenant, filter)
  {
    assert Matching(s, tenant, filter) == Matching(t, tenant, filter);
  }

  /** However the operations of different tenants are mixed, every read under a tenant -
      task lookups, listings under any filter, and configurations - is what it would be
      if only that tenant's operations had been made; those of others alone change none. */
  lemma TenantIsolation(s: StoreState, ops: seq<TenantOp>, tenant: Option<string>)
    requires s.Valid()
    ensures var all, own := AfterStoreOps(s, ops), AfterStoreOps(s, Filter(ops, Under(tenant.GetOr(""))));
            && all.Valid() && own.Valid()
            && (forall id :: GetTask(all, tenant, id) == GetTask(own, tenant, id))
            && (forall filter :: Listing(all, tenant, filter) == Listing(own, tenant, filter))
            && (forall taskId :: ConfigsFor(all, tenant, taskId) == ConfigsFor(own, tenant, taskId))
            && ((forall i | 0 <= i < |ops| :: ops[i].tenant.GetOr("") != tenant.GetOr("")) ==> own == s)
  {
    var mine := Under(tenant.GetOr(""));
    var all, own := AfterStoreOps(s, ops), AfterStoreOps(s, Filter(ops, mine));
    StoreOpsValid(s, ops);
    StoreOpsValid(s, Filter(ops, mine));
    OwnOpsView(s, ops, tenant.GetOr(""));
    if forall i | 0 <= i < |ops| :: !mine(ops[i]) {
      FilterNone(ops, mine);
    }
    forall filter ensures Listing(all, tenant, filter) == Listing(own, tenant, filter) {
      SameViewSameListing(all, own, tenant, filter);
    }
  }

  /** A missing tenant and an empty one read the same namespace. */
  lemma AbsentTenantIsEmptyTenant(s: StoreState, op: StoreOp)
    ensures AfterStoreOp(s, None, op) == AfterStoreOp(s, Some(""), op)
    ensures forall filter :: Listing(s, None, filter) == Listing(s, Some(""), filter)
  {
    forall filter ensures Listing(s, None, filter) == Listing(s, Some(""), filter) {
      assert Matching(s, None, filter) == Matching(s, Some(""), filter);
    }
  }
}
