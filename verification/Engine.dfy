/** The server engine's operations as they run one at a time on one task, changing
    the store, the event logs and the buses in place. How they interleave is the
    subject of module Pipeline. */
module ServerEngine {
  import opened Types
  import opened Requests
  import opened Sequences
  import opened Artifacts
  import opened Turns
  import opened Events
  import opened Store

  /** The sending half of one turn's broadcast channel. */
  class Bus {
    var sent: seq<SeqEvent>

    constructor ()
      ensures sent == []
    {
      sent := [];
    }
  }

  function LogOf(logs: map<string, seq<SeqEvent>>, id: string): seq<SeqEvent> {
    if id in logs then logs[id] else []
  }

  ghost predicate LogsBounded(logs: map<string, seq<SeqEvent>>) {
    forall id | id in logs :: |logs[id]| <= EVENT_LOG_CAPACITY
  }

  /** A store in which only the record `id` of `tenant` may differ. */
  function WithTask(s: StoreState, tenant: Option<string>, id: string, t: Option<Task>): StoreState {
    match t
    case None => s
    case Some(task) => s.(tasks := s.tasks[Key(TenantKey(tenant), id) := task])
  }

  lemma {:induction false} FoldKeepsId(cur: Option<Task>, f: Frame, isTurn: bool, evs: seq<StreamResponse>)
    requires cur.Some? ==> cur.value.id == f.taskId
    ensures var final := FoldEvents(cur, f, isTurn, evs);
            && (final.Some? ==> final.value.id == f.taskId)
            && (cur.Some? ==> final.Some?)
  {
    if evs != [] {
      FoldKeepsId(cur, f, isTurn, evs[..|evs| - 1]);
    }
  }

  class Engine {
    const store: InMemoryTaskStore
    const agent: AgentSupport
    var eventLogs: map<string, seq<SeqEvent>>
    var nextSeq: nat
    var buses: map<string, Bus>
    /** Per running turn, whether its cancellation token has fired. */
    var cancelTokens: map<string, bool>

    ghost predicate Valid()
      reads this, store
    {
      store.Valid() && LogsBounded(eventLogs)
    }

    function TaskAt(tenant: Option<string>, id: string): Option<Task>
      reads this, store
    {
      GetTask(store.State(), tenant, id)
    }

    constructor (store: InMemoryTaskStore, agent: AgentSupport)
      requires store.Valid()
      ensures Valid() && this.store == store && this.agent == agent
      ensures eventLogs == map[] && nextSeq == 1 && buses == map[] && cancelTokens == map[]
    {
      this.store, this.agent := store, agent;
      eventLogs, nextSeq, buses, cancelTokens := map[], 1, map[], map[];
    }

    /** Numbers and logs the event, then rewrites the task's record. */
    method ApplyEvent(tenant: Option<string>, f: Frame, first: bool, evt: StreamResponse) returns (seqNo: nat)
      requires Valid()
      modifies this`eventLogs, this`nextSeq, store
      ensures Valid()
      ensures seqNo == old(nextSeq) && nextSeq == seqNo + 1
      ensures eventLogs == old(eventLogs)[f.taskId := Pushed(LogOf(old(eventLogs), f.taskId), SeqEvent(seqNo, evt))]
      ensures store.State()
           == WithTask(old(store.State()), tenant, f.taskId, Applied(old(TaskAt(tenant, f.taskId)), f, first, evt))
    {
      seqNo := nextSeq;
      nextSeq := nextSeq + 1;
      var log := LogOf(eventLogs, f.taskId) + [SeqEvent(seqNo, evt)];
      if |log| > EVENT_LOG_CAPACITY {
        log := log[1..];
      }
      eventLogs := eventLogs[f.taskId := log];

      match evt
      case StatusUpdate(u) =>
        var task := SeededTask(tenant, f, first, Submitted);
        task := task.(status := u.status);
        if u.status.message.Some? {
          task := task.(history := task.history + [u.status.message.value]);
        }
        assert task == Applied(old(TaskAt(tenant, f.taskId)), f, first, evt).value;
        store.Put(tenant, task);
      case ArtifactUpdate(u) =>
        var task := SeededTask(tenant, f, first, Working);
        task := MergeArtifact(task, u);
        store.Put(tenant, task);
      case _ =>
        SameRecord(store.State(), tenant, f.taskId);
    }

    /** The stored task, with the turn's message if this is its first event, or a new one
        with it. */
    method SeededTask(tenant: Option<string>, f: Frame, first: bool, state: TaskState) returns (task: Task)
      requires Valid()
      ensures task == Seeded(TaskAt(tenant, f.taskId), f, first, state) && task.id == f.taskId
    {
      var found := store.Get(tenant, f.taskId);
      if found.Some? {
        task := found.value;
        if first {
          task := task.(history := task.history + [f.seed]);
        }
      } else {
        task := NewTask(f.taskId, f.contextId, state, f.now);
        task := task.(history := [f.seed]);
      }
    }

    /** What a turn on `id` with this bus can see and change, as one value. */
    function Seen(bus: Bus, id: string): TurnState
      reads this, bus
    {
      TurnState(bus.sent, nextSeq, LogOf(eventLogs, id))
    }

    /** One event of a turn: announce the task first if this opens a task-shaped
        turn, apply the event, and only then put it on the bus. */
    method PumpEvent(tenant: Option<string>, f: Frame, lead: Task, bus: Bus, first: bool, evt: StreamResponse)
      requires Valid()
      modifies this`eventLogs, this`nextSeq, store, bus
      ensures Valid()
      ensures var leads := if first && !evt.BareMessage? then [SeqEvent(old(nextSeq), TaskObject(lead))] else [];
              var item := SeqEvent(old(nextSeq) + |leads|, evt);
              && bus.sent == old(bus.sent) + leads + [item]
              && nextSeq == old(nextSeq) + |leads| + 1
              && eventLogs == old(eventLogs)[f.taskId := Pushed(LogOf(old(eventLogs), f.taskId), item)]
      ensures Seen(bus, f.taskId) == StreamAfterEvent(lead, old(Seen(bus, f.taskId)), first, evt)
      ensures store.State()
           == WithTask(old(store.State()), tenant, f.taskId, Applied(old(TaskAt(tenant, f.taskId)), f, first, evt))
    {
      if first && !evt.BareMessage? {
        bus.sent := bus.sent + [SeqEvent(nextSeq, TaskObject(lead))];
        nextSeq := nextSeq + 1;
      }
      var seqNo := ApplyEvent(tenant, f, first, evt);
      bus.sent := bus.sent + [SeqEvent(seqNo, evt)];
    }

    method PumpTracked(tenant: Option<string>, f: Frame, lead: Task, bus: Bus, first: bool, evt: StreamResponse,
                       ghost begin: TurnState, ghost before: StoreState, ghost done: seq<StreamResponse>)
      requires Valid() && before.Valid()
      requires (first <==> done == []) && NoneStops(done, Closes)
      requires Seen(bus, f.taskId) == StreamAfterTurn(lead, begin, done)
      requires store.State() == StoreAfter(tenant, f, true, before, done)
      modifies this`eventLogs, this`nextSeq, store, bus
      ensures Valid()
      ensures Seen(bus, f.taskId) == StreamAfterTurn(lead, begin, done + [evt])
      ensures store.State() == StoreAfter(tenant, f, true, before, done + [evt])
      ensures forall id | id != f.taskId :: LogOf(eventLogs, id) == LogOf(old(eventLogs), id)
    {
      StreamAfterTurnSnoc(lead, begin, done, evt);
      StoreAfterSnoc(tenant, f, true, before, done, evt);
      PumpEvent(tenant, f, lead, bus, first, evt);
    }

    /** The receive loop of a background pump: apply the executor's events one by one
        until one of them closes the turn. */
    method PumpLoop(tenant: Option<string>, f: Frame, lead: Task, bus: Bus, raw: seq<StreamResponse>)
      returns (sawOutcome: bool, first: bool)
      requires Valid() && bus.sent == []
      modifies this`eventLogs, this`nextSeq, store, bus
      ensures Valid()
      ensures sawOutcome <==> HasOutcome(Processed(raw))
      ensures first <==> Processed(raw) == []
      ensures Seen(bus, f.taskId) == StreamAfterTurn(lead, old(Seen(bus, f.taskId)), Processed(raw))
      ensures store.State() == StoreAfter(tenant, f, true, old(store.State()), Processed(raw))
      ensures forall id | id != f.taskId :: LogOf(eventLogs, id) == LogOf(old(eventLogs), id)
    {
      ghost var begin, before := Seen(bus, f.taskId), store.State();
      sawOutcome, first := false, true;
      ghost var done: seq<StreamResponse> := [];
      AfterNothing(tenant, f, lead, begin, before);
      LookStarts(raw);
      var i := 0;
      while i < |raw|
        invariant Valid() && Looked(raw, i, done, first, sawOutcome) && NoneStops(done, Closes)
        invariant Seen(bus, f.taskId) == StreamAfterTurn(lead, begin, done)
        invariant store.State() == StoreAfter(tenant, f, true, before, done)
        invariant forall id | id != f.taskId :: LogOf(eventLogs, id) == LogOf(old(eventLogs), id)
      {
        var evt := raw[i];
        LookOn(raw, i, done, first, sawOutcome);
        i := i + 1;
        if IsEmptyArtifactUpdate(evt) {
          continue;
        }
        PumpTracked(tenant, f, lead, bus, first, evt, begin, before, done);
        done := done + [evt];
        first := false;
        if evt.IsTurnOutcome() {
          sawOutcome := true;
        }
        if evt.ClosesStream() {
          break;
        }
      }
      LookEnds(raw, i, done, first, sawOutcome);
    }

    /** Reports a made-up failure if the executor ended without any outcome. */
    method ReportFailure(tenant: Option<string>, f: Frame, lead: Task, bus: Bus, sawOutcome: bool, first: bool,
                         raw: seq<StreamResponse>, ending: Ending, stamp: Stamp,
                         ghost begin: TurnState, ghost before: StoreState)
      requires Valid() && before.Valid()
      requires (sawOutcome <==> HasOutcome(Processed(raw))) && (first <==> Processed(raw) == [])
      requires Seen(bus, f.taskId) == StreamAfterTurn(lead, begin, Processed(raw))
      requires store.State() == StoreAfter(tenant, f, true, before, Processed(raw))
      modifies this`eventLogs, this`nextSeq, store, bus
      ensures Valid()
      ensures Seen(bus, f.taskId) == StreamAfterTurn(lead, begin, TurnEvents(f, raw, ending, stamp))
      ensures store.State() == StoreAfter(tenant, f, true, before, TurnEvents(f, raw, ending, stamp))
      ensures forall id | id != f.taskId :: LogOf(eventLogs, id) == LogOf(old(eventLogs), id)
    {
      if !sawOutcome && !ending.ReturnedOk? {
        NoOutcomeNoClose(Processed(raw));
        var failure := FailureEvent(f, FailureText(ending), stamp);
        PumpTracked(tenant, f, lead, bus, first, failure, begin, before, Processed(raw));
      }
    }

    /** A whole turn: the receive loop, a made-up failure if the executor ended without
        an outcome, and the bus and the token taken out of the registries again. */
    method Pump(tenant: Option<string>, f: Frame, lead: Task, bus: Bus, raw: seq<StreamResponse>, ending: Ending,
                stamp: Stamp)
      requires Valid() && bus.sent == []
      modifies this, store, bus
      ensures Valid()
      ensures Seen(bus, f.taskId) == StreamAfterTurn(lead, old(Seen(bus, f.taskId)), TurnEvents(f, raw, ending, stamp))
      ensures store.State() == StoreAfter(tenant, f, true, old(store.State()), TurnEvents(f, raw, ending, stamp))
      ensures forall id | id != f.taskId :: LogOf(eventLogs, id) == LogOf(old(eventLogs), id)
      ensures buses == old(buses) - {f.taskId} && cancelTokens == old(cancelTokens) - {f.taskId}
    {
      ghost var begin, before := Seen(bus, f.taskId), store.State();
      var sawOutcome, first := PumpLoop(tenant, f, lead, bus, raw);
      ReportFailure(tenant, f, lead, bus, sawOutcome, first, raw, ending, stamp, begin, before);
      Unregister(f.taskId);
    }

    method Unregister(id: string)
      modifies this`buses, this`cancelTokens
      ensures buses == old(buses) - {id} && cancelTokens == old(cancelTokens) - {id}
    {
      buses := buses - {id};
      cancelTokens := cancelTokens - {id};
    }

    /** Looks for a part of a media type this agent does not take. */
    method CheckContentTypes(message: Message) returns (refused: Option<string>)
      ensures refused == agent.RefusedType(message.parts)
      ensures refused.None? <==>
                || agent.defaultInputModes == []
                || forall i | 0 <= i < |message.parts| ::
                     var media := message.parts[i].mediaType;
                     media.Some? ==> media.value in agent.defaultInputModes
    {
      if agent.defaultInputModes == [] {
        return None;
      }
      var parts := message.parts;
      refused := None;
      for i := 0 to |parts|
        invariant refused == None
        invariant agent.RefusedType(parts) == agent.RefusedType(parts[i..])
      {
        assert parts[i..][1..] == parts[i + 1..];
        if parts[i].mediaType.Some? {
          if parts[i].mediaType.value !in agent.defaultInputModes {
            return Some(parts[i].mediaType.value);
          }
        }
      }
      assert parts[|parts|..] == [];
    }

    /** Finds the task a message continues, or the ids of a new one. */
    method ResolveIds(tenant: Option<string>, message: Message, newTaskId: string, newContextId: string)
      returns (r: Result<(string, string, Option<Task>), A2aError>)
      requires Valid()
      ensures r == Resolved(store.State(), tenant, message, newTaskId, newContextId)
    {
      if message.taskId.Some? {
        var taskId := message.taskId.value;
        var task := store.Get(tenant, taskId);
        if task.None? {
          return Err(TaskNotFound(taskId));
        }
        if message.contextId.Some? {
          if task.value.contextId != message.contextId {
            return Err(InvalidParams);
          }
        }
        return Ok((taskId, task.value.contextId.GetOr(""), task));
      }
      r := Ok((newTaskId, message.contextId.GetOr(newContextId), None));
    }

    /** Validates a message, finds or creates the ids of its turn, stores the push
        configuration that came with a new task, and registers the turn's bus and token.
        `caller` answers for authorization and for the webhook address, and supplies the
        ids and the time. */
    method StartExecution(req: SendMessageRequest, caller: Caller) returns (r: Result<Started, A2aError>)
      requires Valid()
      modifies this`buses, this`cancelTokens, store
      ensures Valid()
      ensures r == Admission(old(store.State()), agent, req, caller)
      ensures r.Err? ==> buses == old(buses) && cancelTokens == old(cancelTokens) && store.State() == old(store.State())
      ensures r.Ok? ==>
                var id := r.value.frame.taskId;
                && id in buses && fresh(buses[id]) && buses[id].sent == []
                && buses == old(buses)[id := buses[id]]
                && cancelTokens == old(cancelTokens)[id := false]
                && store.State() == WithInlineConfig(old(store.State()), req, id, caller.newConfigId)
    {
      if req.message.parts == [] {
        return Err(InvalidParams);
      }
      var refused := CheckContentTypes(req.message);
      if refused.Some? {
        return Err(ContentTypeNotSupported(refused.value));
      }
      var resolved := ResolveIds(req.tenant, req.message, caller.newTaskId, caller.newContextId);
      if resolved.Err? {
        return Err(resolved.error);
      }
      var (taskId, contextId, existing) := resolved.value;
      var lead;
      if existing.Some? {
        if !caller.visible(existing.value) {
          return Err(NotAuthorized);
        }
        if existing.value.status.state.IsTerminal() {
          return Err(UnsupportedOperation(existing.value.id));
        }
        lead := existing.value;
      } else {
        if req.configuration.Some? && req.configuration.value.taskPushNotificationConfig.Some? {
          var config := req.configuration.value.taskPushNotificationConfig.value;
          if !agent.Push() {
            return Err(PushNotificationNotSupported);
          }
          if !caller.webhookOk(config.url) {
            return Err(InvalidParams);
          }
          config := config.(taskId := Some(taskId), tenant := req.tenant);
          var _ := store.PutPushConfig(req.tenant, config, caller.newConfigId);
        }
        lead := NewTask(taskId, contextId, Submitted, caller.now);
        lead := lead.(history := lead.history + [req.message]);
        assert lead.history == [req.message];
      }
      var bus := new Bus();
      buses := buses[taskId := bus];
      cancelTokens := cancelTokens[taskId := false];
      r := Ok(Started(Frame(taskId, contextId, req.message, caller.now), lead));
    }

    /** Applies one event of a cancel and forwards it to the task's bus, if it has one. */
    method CancelEvent(tenant: Option<string>, f: Frame, bus: Bus?, evt: StreamResponse)
      requires Valid()
      modifies this`eventLogs, this`nextSeq, store, bus
      ensures Valid()
      ensures nextSeq == old(nextSeq) + 1
      ensures eventLogs
           == old(eventLogs)[f.taskId := Pushed(LogOf(old(eventLogs), f.taskId), SeqEvent(old(nextSeq), evt))]
      ensures bus != null ==> bus.sent == old(bus.sent) + [SeqEvent(old(nextSeq), evt)]
      ensures store.State()
           == WithTask(old(store.State()), tenant, f.taskId, Applied(old(TaskAt(tenant, f.taskId)), f, false, evt))
    {
      var seqNo := ApplyEvent(tenant, f, false, evt);
      if bus != null {
        bus.sent := bus.sent + [SeqEvent(seqNo, evt)];
      }
    }

    /** What a cancel of `id` can see and change besides the store; `bus` is null when
        no turn is running. */
    function SeenByCancel(bus: Bus?, id: string): TurnState
      reads this, bus
    {
      TurnState(if bus == null then [] else bus.sent, nextSeq, LogOf(eventLogs, id))
    }

    method CancelTracked(tenant: Option<string>, f: Frame, bus: Bus?, evt: StreamResponse,
                         ghost begin: TurnState, ghost before: StoreState, ghost done: seq<StreamResponse>)
      requires Valid() && before.Valid()
      requires SeenByCancel(bus, f.taskId) == StreamAfterCancel(begin, bus != null, done)
      requires store.State() == StoreAfter(tenant, f, false, before, done)
      modifies this`eventLogs, this`nextSeq, store, bus
      ensures Valid()
      ensures SeenByCancel(bus, f.taskId) == StreamAfterCancel(begin, bus != null, done + [evt])
      ensures store.State() == StoreAfter(tenant, f, false, before, done + [evt])
      ensures forall id | id != f.taskId :: LogOf(eventLogs, id) == LogOf(old(eventLogs), id)
    {
      StoreAfterSnoc(tenant, f, false, before, done, evt);
      StreamAfterCancelSnoc(begin, bus != null, done, evt);
      CancelEvent(tenant, f, bus, evt);
    }

    /** The events of an admitted cancel: what the executor emitted, and a Canceled
        status if that leaves the task open. */
    method RunCancel(tenant: Option<string>, f: Frame, emitted: seq<StreamResponse>, bus: Bus?, at: DateTime)
      returns (updated: Task)
      requires Valid() && TaskAt(tenant, f.taskId).Some?
      modifies this`eventLogs, this`nextSeq, store, bus
      ensures Valid()
      ensures TaskAt(tenant, f.taskId) == Some(updated)
      ensures var evs := CancelEvents(old(TaskAt(tenant, f.taskId)), f, emitted, at);
              && store.State() == StoreAfter(tenant, f, false, old(store.State()), evs)
              && SeenByCancel(bus, f.taskId) == StreamAfterCancel(old(SeenByCancel(bus, f.taskId)), bus != null, evs)
      ensures forall id | id != f.taskId :: LogOf(eventLogs, id) == LogOf(old(eventLogs), id)
    {
      ghost var begin, before, cur := SeenByCancel(bus, f.taskId), store.State(), TaskAt(tenant, f.taskId);
      ghost var done: seq<StreamResponse> := [];
      NothingDone(tenant, f, begin, bus != null, before);
      assert emitted[..0] == [];
      for i := 0 to |emitted|
        invariant Valid() && done == Filter(emitted[..i], Kept)
        invariant SeenByCancel(bus, f.taskId) == StreamAfterCancel(begin, bus != null, done)
        invariant store.State() == StoreAfter(tenant, f, false, before, done)
        invariant forall id | id != f.taskId :: LogOf(eventLogs, id) == LogOf(old(eventLogs), id)
      {
        KeptSnoc(emitted, i);
        if !IsEmptyArtifactUpdate(emitted[i]) {
          CancelTracked(tenant, f, bus, emitted[i], begin, before, done);
          done := done + [emitted[i]];
        }
      }
      assert emitted[..|emitted|] == emitted;
      StoreAfterHolds(tenant, f, false, before, done);
      updated := GetExisting(tenant, f.taskId);
      if !updated.status.state.IsTerminal() {
        CancelTracked(tenant, f, bus, CanceledEvent(f, at), begin, before, done);
        StoreAfterHolds(tenant, f, false, before, done + [CanceledEvent(f, at)]);
        updated := GetExisting(tenant, f.taskId);
      }
    }

    /** A cancel that passed all checks. */
    method PerformCancel(tenant: Option<string>, task: Task, f: Frame, emitted: seq<StreamResponse>, bus: Bus?,
                         at: DateTime)
      returns (updated: Task)
      requires Valid() && TaskAt(tenant, f.taskId) == Some(task) && !task.status.state.IsTerminal()
      requires f.contextId == task.contextId.GetOr("")
      modifies this`eventLogs, this`nextSeq, store, bus
      ensures Valid()
      ensures TaskAt(tenant, f.taskId) == Some(updated)
      ensures CancelLeaves(task, f.taskId, emitted, at, updated, LogOf(eventLogs, f.taskId), nextSeq)
      ensures IsOneOp(Some(task), CancelOp(f, emitted, true, at), true, Some(updated))
      ensures var evs := CancelEvents(Some(task), f, emitted, at);
              && store.State() == StoreAfter(tenant, f, false, old(store.State()), evs)
              && SeenByCancel(bus, f.taskId) == StreamAfterCancel(old(SeenByCancel(bus, f.taskId)), bus != null, evs)
      ensures forall id | id != f.taskId :: LogOf(eventLogs, id) == LogOf(old(eventLogs), id)
    {
      ghost var before, begin := store.State(), SeenByCancel(bus, f.taskId);
      updated := RunCancel(tenant, f, emitted, bus, at);
      StoreAfterHolds(tenant, f, false, before, CancelEvents(Some(task), f, emitted, at));
      CancelOutcome(task, f, emitted, at, begin, bus != null);
      Accepted(task, f, emitted, at);
    }

    method GetExisting(tenant: Option<string>, id: string) returns (t: Task)
      requires TaskAt(tenant, id).Some?
      ensures TaskAt(tenant, id) == Some(t)
    {
      var found := store.Get(tenant, id);
      t := found.value;
    }

    /** CancelTask. `emitted` and `outcome` are what the executor's `cancel` sends and
        returns; `at` is the clock reading for a made-up Canceled status. */
    method CancelTask(req: CancelTaskRequest, visible: Task -> bool, emitted: seq<StreamResponse>,
                      outcome: Result<(), string>, emptyMessageId: string, at: DateTime)
      returns (r: Result<Task, A2aError>)
      requires Valid()
      modifies this`eventLogs, this`nextSeq, this`cancelTokens, store, if req.id in buses then {buses[req.id]} else {}
      ensures Valid()
      ensures CancelReply(old(TaskAt(req.tenant, req.id)), visible, req.id, outcome, r)
      ensures cancelTokens == if CanCancel(old(TaskAt(req.tenant, req.id)), visible) && req.id in old(cancelTokens)
                              then old(cancelTokens)[req.id := true] else old(cancelTokens)
      ensures r.Err? ==> store.State() == old(store.State()) && eventLogs == old(eventLogs) && nextSeq == old(nextSeq)
      ensures var cur := old(TaskAt(req.tenant, req.id));
              cur.Some? && visible(cur.value) ==>
                var op := CancelOp(CancelFrame(cur.value, req.id, emptyMessageId, at), emitted, outcome.Ok?, at);
                IsOneOp(cur, op, r.Ok?, TaskAt(req.tenant, req.id))
      ensures forall id | id != req.id :: LogOf(eventLogs, id) == LogOf(old(eventLogs), id)
      ensures r.Ok? ==>
                var cur := old(TaskAt(req.tenant, req.id));
                var f := CancelFrame(cur.value, req.id, emptyMessageId, at);
                var evs := CancelEvents(cur, f, emitted, at);
                var bus: Bus? := if req.id in buses then buses[req.id] else null;
                && TaskAt(req.tenant, req.id) == Some(r.value)
                && CancelLeaves(cur.value, req.id, emitted, at, r.value, LogOf(eventLogs, req.id), nextSeq)
                && store.State() == StoreAfter(req.tenant, f, false, old(store.State()), evs)
                && SeenByCancel(bus, req.id) == StreamAfterCancel(old(SeenByCancel(bus, req.id)), bus != null, evs)
    {
      var found := store.Get(req.tenant, req.id);
      if found.None? {
        return Err(TaskNotFound(req.id));
      }
      var task := found.value;
      if !visible(task) {
        return Err(NotAuthorized);
      }
      NotAccepted(task, CancelFrame(task, req.id, emptyMessageId, at), emitted, outcome.Ok?, at);
      if task.status.state.IsTerminal() {
        return Err(TaskNotCancelable(req.id));
      }
      if req.id in cancelTokens {
        cancelTokens := cancelTokens[req.id := true];
      }
      if outcome.Err? {
        return Err(ExecutorError(outcome.error));
      }
      var bus: Bus? := if req.id in buses then buses[req.id] else null;
      var updated := PerformCancel(req.tenant, task, CancelFrame(task, req.id, emptyMessageId, at), emitted, bus, at);
      r := Ok(updated);
    }
  }

  datatype Started = Started(frame: Frame, lead: Task)

  /** What the surroundings of a call decide: whether the caller may see a task, whether
      a webhook address is acceptable, fresh ids, and the time. */
  datatype Caller = Caller(
    visible: Task -> bool,
    webhookOk: string -> bool,
    newTaskId: string,
    newContextId: string,
    newConfigId: string,
    now: DateTime)

  function Resolved(s: StoreState, tenant: Option<string>, m: Message, newTaskId: string, newContextId: string)
    : Result<(string, string, Option<Task>), A2aError>
  {
    match m.taskId
    case None => Ok((newTaskId, m.contextId.GetOr(newContextId), None))
    case Some(id) =>
      match GetTask(s, tenant, id)
      case None => Err(TaskNotFound(id))
      case Some(t) =>
        if m.contextId.Some? && m.contextId != t.contextId then Err(InvalidParams)
        else Ok((id, t.contextId.GetOr(""), Some(t)))
  }

  /** The push configuration sent along with a message that creates a task. */
  function InlineConfig(req: SendMessageRequest): Option<PushConfig> {
    if req.message.taskId.Some? || req.configuration.None? then None
    else req.configuration.value.taskPushNotificationConfig
  }

  function InlineRefusal(agent: AgentSupport, config: Option<PushConfig>, caller: Caller): Option<A2aError> {
    if config.None? then None
    else if !agent.Push() then Some(PushNotificationNotSupported)
    else if !caller.webhookOk(config.value.url) then Some(InvalidParams)
    else None
  }

  /** The store with that configuration filed under the new task. */
  function WithInlineConfig(s: StoreState, req: SendMessageRequest, id: string, newConfigId: string): StoreState {
    match InlineConfig(req)
    case None => s
    case Some(config) =>
      PutConfig(s, req.tenant, WithId(config.(taskId := Some(id), tenant := req.tenant), newConfigId))
  }

  /** Which messages start a turn, and as what. */
  function Admission(s: StoreState, agent: AgentSupport, req: SendMessageRequest, caller: Caller)
    : Result<Started, A2aError>
  {
    var m := req.message;
    var refused := agent.RefusedType(m.parts);
    if m.parts == [] then Err(InvalidParams)
    else if refused.Some? then Err(ContentTypeNotSupported(refused.value))
    else
      match Resolved(s, req.tenant, m, caller.newTaskId, caller.newContextId)
      case Err(e) => Err(e)
      case Ok((id, contextId, Some(t))) =>
        if !caller.visible(t) then Err(NotAuthorized)
        else if t.status.state.IsTerminal() then Err(UnsupportedOperation(t.id))
        else Ok(Started(Frame(id, contextId, m, caller.now), t))
      case Ok((id, contextId, None)) =>
        var refusal := InlineRefusal(agent, InlineConfig(req), caller);
        if refusal.Some? then Err(refusal.value)
        else
          var f := Frame(id, contextId, m, caller.now);
          Ok(Started(f, Seeded(None, f, true, Submitted)))
  }

  /** The media type of some part is one the agent did not declare. */
  ghost predicate ForeignPart(agent: AgentSupport, m: Message) {
    && agent.defaultInputModes != []
    && exists i | 0 <= i < |m.parts| ::
         m.parts[i].mediaType.Some? && m.parts[i].mediaType.value !in agent.defaultInputModes
  }

  /** The message itself can be taken. */
  ghost predicate WellFormed(agent: AgentSupport, m: Message) {
    m.parts != [] && !ForeignPart(agent, m)
  }

  lemma PartsAccepted(agent: AgentSupport, m: Message)
    ensures agent.RefusedType(m.parts).Some? <==> ForeignPart(agent, m)
  {
  }

  /** What a message to an existing task comes to: the first reason to refuse it, or a turn
      on that very task, under its ids. */
  lemma ContinuationMeaning(s: StoreState, agent: AgentSupport, req: SendMessageRequest, caller: Caller)
    requires s.Valid() && WellFormed(agent, req.message) && req.message.taskId.Some?
    ensures var r, m, id := Admission(s, agent, req, caller), req.message, req.message.taskId.value;
            match GetTask(s, req.tenant, id)
            case None => r == Err(TaskNotFound(id))
            case Some(t) =>
              if m.contextId.Some? && m.contextId != t.contextId then r == Err(InvalidParams)
              else if !caller.visible(t) then r == Err(NotAuthorized)
              else if t.status.state in {Completed, Failed, Canceled, Rejected} then r == Err(UnsupportedOperation(id))
              else r == Ok(Started(Frame(id, t.contextId.GetOr(""), m, caller.now), t))
  {
    PartsAccepted(agent, req.message);
  }

  /** What any other message comes to: a refusal of the push configuration sent along, or a
      turn on a fresh task in the message's context, announced as Submitted with the message
      as its history. */
  lemma NewTaskMeaning(s: StoreState, agent: AgentSupport, req: SendMessageRequest, caller: Caller)
    requires WellFormed(agent, req.message) && req.message.taskId.None?
    ensures var r, m := Admission(s, agent, req, caller), req.message;
            var context := m.contextId.GetOr(caller.newContextId);
            var config := if req.configuration.None? then None
                          else req.configuration.value.taskPushNotificationConfig;
            if config.Some? && agent.pushNotifications != Some(true) then r == Err(PushNotificationNotSupported)
            else if config.Some? && !caller.webhookOk(config.value.url) then r == Err(InvalidParams)
            else
              var status := TaskStatus(Submitted, None, Some(caller.now));
              r == Ok(Started(Frame(caller.newTaskId, context, m, caller.now),
                              Task(caller.newTaskId, Some(context), status, [], [m], None)))
  {
    PartsAccepted(agent, req.message);
  }

  /** Which messages start a turn, and on what: a message without parts, or with a part of
      an undeclared media type, is refused for that first. */
  lemma AdmissionMeaning(s: StoreState, agent: AgentSupport, req: SendMessageRequest, caller: Caller)
    requires s.Valid()
    ensures var r, m := Admission(s, agent, req, caller), req.message;
            && (m.parts == [] ==> r == Err(InvalidParams))
            && (m.parts != [] && ForeignPart(agent, m) ==>
                  r.Err? && r.error.ContentTypeNotSupported? && r.error.mediaType !in agent.defaultInputModes)
            && (r.Ok? ==>
                  && WellFormed(agent, m) && r.value.frame.seed == m && r.value.frame.taskId == r.value.lead.id
                  && !(r.value.lead.status.state in {Completed, Failed, Canceled, Rejected})
                  && (m.taskId.Some? ==>
                        && GetTask(s, req.tenant, m.taskId.value) == Some(r.value.lead) && caller.visible(r.value.lead)
                        && (m.contextId.Some? ==> r.value.lead.contextId == m.contextId))
                  && (m.taskId.None? ==> r.value.lead.id == caller.newTaskId && r.value.lead.history == [m]))
  {
    PartsAccepted(agent, req.message);
    if WellFormed(agent, req.message) {
      if req.message.taskId.Some? {
        ContinuationMeaning(s, agent, req, caller);
      } else {
        NewTaskMeaning(s, agent, req, caller);
      }
    }
  }

  /** A configuration that came with a message is filed under the new task, in the
      sender's tenant; no task record and no other task's configurations change. */
  lemma InlineConfigMeaning(s: StoreState, req: SendMessageRequest, id: string, newConfigId: string)
    requires s.Valid()
    ensures var s' := WithInlineConfig(s, req, id, newConfigId);
            && s'.Valid() && s'.tasks == s.tasks && SameConfigsElsewhere(s, s', req.tenant, id)
            && if || req.message.taskId.Some? || req.configuration.None?
                  || req.configuration.value.taskPushNotificationConfig.None?
               then s' == s
               else
                 var sent := req.configuration.value.taskPushNotificationConfig.value;
                 var key := sent.id.GetOr(newConfigId);
                 ConfigMap(ConfigsFor(s', req.tenant, id))
                 == ConfigMap(ConfigsFor(s, req.tenant, id))
                      [key := sent.(id := Some(key), taskId := Some(id), tenant := req.tenant)]
  {
    if InlineConfig(req).Some? {
      var stored := WithId(InlineConfig(req).value.(taskId := Some(id), tenant := req.tenant), newConfigId);
      PutConfigValid(s, req.tenant, stored);
      PutConfigRefinesMap(ConfigsFor(s, req.tenant, id), stored);
    }
  }

  /** The checks a cancel has to pass before anything happens. */
  predicate CanCancel(cur: Option<Task>, visible: Task -> bool) {
    && cur.Some? && visible(cur.value)
    && !(cur.value.status.state in {Completed, Failed, Canceled, Rejected})
  }

  /** Which cancels are refused, and why. */
  predicate CancelReply(cur: Option<Task>, visible: Task -> bool, id: string, outcome: Result<(), string>,
                        r: Result<Task, A2aError>)
  {
    && (cur.None? ==> r == Err(TaskNotFound(id)))
    && (cur.Some? && !visible(cur.value) ==> r == Err(NotAuthorized))
    && (cur.Some? && visible(cur.value) && cur.value.status.state in {Completed, Failed, Canceled, Rejected} ==>
          r == Err(TaskNotCancelable(id)))
    && (CanCancel(cur, visible) ==>
          (outcome.Err? ==> r == Err(ExecutorError(outcome.error))) && (outcome.Ok? ==> r.Ok?))
  }

  /** What an admitted cancel leaves: the messages it was given added to the history; the
      last status if that is terminal, and otherwise a Canceled one, which is also the last
      thing logged. */
  ghost predicate CancelLeaves(cur: Task, id: string, emitted: seq<StreamResponse>, at: DateTime, t: Task,
                               log: seq<SeqEvent>, next: nat)
  {
    var last := LastStatus(cur.status, WithParts(emitted));
    && t.history == cur.history + StatusMessages(WithParts(emitted))
    && if last.state in {Completed, Failed, Canceled, Rejected} then t.status == last
       else
         && t.status == TaskStatus(Canceled, None, Some(at))
         && EndsWith(log, next - 1, TaskStatusUpdateEvent(id, cur.contextId.GetOr(""), t.status, None))
  }

  lemma {:induction false} CancelOutcome(cur: Task, f: Frame, emitted: seq<StreamResponse>, at: DateTime,
                                         begin: TurnState, hasBus: bool)
    requires f.contextId == cur.contextId.GetOr("")
    ensures var evs := CancelEvents(Some(cur), f, emitted, at);
            var t, after := FoldEvents(Some(cur), f, false, evs), StreamAfterCancel(begin, hasBus, evs);
            t.Some? && CancelLeaves(cur, f.taskId, emitted, at, t.value, after.log, after.next)
  {
    CancelLandsTerminal(Some(cur), f, emitted, at);
    KeptHaveParts(emitted);
    MadeUpIsLogged(Some(cur), f, emitted, at, begin, hasBus);
  }

  /** The call was one operation of a serial run: admitted as that is, and leaving what it
      leaves. */
  ghost predicate IsOneOp(cur: Option<Task>, op: Op, admitted: bool, after: Option<Task>) {
    (admitted <==> OpAccepted(cur, op)) && after == AfterOp(cur, op)
  }

  lemma NotAccepted(cur: Task, f: Frame, emitted: seq<StreamResponse>, ok: bool, at: DateTime)
    ensures cur.status.state.IsTerminal() || !ok ==>
              IsOneOp(Some(cur), CancelOp(f, emitted, ok, at), false, Some(cur))
  {
  }

  lemma Accepted(cur: Task, f: Frame, emitted: seq<StreamResponse>, at: DateTime)
    requires !cur.status.state.IsTerminal()
    ensures IsOneOp(Some(cur), CancelOp(f, emitted, true, at), true,
                    FoldEvents(Some(cur), f, false, CancelEvents(Some(cur), f, emitted, at)))
  {
  }

  ghost predicate EndsWith(log: seq<SeqEvent>, seqNo: int, u: TaskStatusUpdateEvent) {
    log != [] && log[|log| - 1].seqNo == seqNo && log[|log| - 1].evt == StatusUpdate(u)
  }

  lemma LogWithLast(log: seq<SeqEvent>, start: nat, done: seq<StreamResponse>, evt: StreamResponse)
    ensures var after := LogWith(log, start, done + [evt]);
            after != [] && after[|after| - 1] == SeqEvent(start + |done|, evt)
  {
    LogSnoc(log, start, done, evt);
  }

  /** A Canceled status that had to be made up is the last thing logged. */
  lemma MadeUpIsLogged(cur: Option<Task>, f: Frame, emitted: seq<StreamResponse>, at: DateTime, begin: TurnState,
                       hasBus: bool)
    requires cur.Some?
    ensures var evs := CancelEvents(cur, f, emitted, at);
            var after := StreamAfterCancel(begin, hasBus, evs);
            !(LastStatus(cur.value.status, Filter(emitted, Kept)).state in {Completed, Failed, Canceled, Rejected}) ==>
              EndsWith(after.log, after.next - 1,
                       TaskStatusUpdateEvent(f.taskId, f.contextId, TaskStatus(Canceled, None, Some(at)), None))
  {
    var kept := Filter(emitted, Kept);
    FoldsOn(cur.value, f, kept);
    LogWithLast(begin.log, begin.next, kept, CanceledEvent(f, at));
  }

  function CancelFrame(task: Task, id: string, emptyMessageId: string, at: DateTime): Frame {
    var seed := if task.history == [] then Message(emptyMessageId, None, None, User, [], None, [], [])
                else task.history[|task.history| - 1];
    Frame(id, task.contextId.GetOr(""), seed, at)
  }

  function StreamAfterCancel(begin: TurnState, hasBus: bool, evs: seq<StreamResponse>): TurnState {
    TurnState(
      if hasBus then begin.sent + Numbered(begin.next, evs) else [],
      begin.next + |evs|,
      LogWith(begin.log, begin.next, evs))
  }

  /** What one event of a cancel does to the bus, the counter and the log. */
  function StreamAfterCancelEvent(t: TurnState, hasBus: bool, evt: StreamResponse): TurnState {
    var item := SeqEvent(t.next, evt);
    TurnState(if hasBus then t.sent + [item] else t.sent, t.next + 1, Pushed(t.log, item))
  }

  lemma StreamAfterCancelSnoc(begin: TurnState, hasBus: bool, done: seq<StreamResponse>, evt: StreamResponse)
    ensures StreamAfterCancelEvent(StreamAfterCancel(begin, hasBus, done), hasBus, evt)
         == StreamAfterCancel(begin, hasBus, done + [evt])
  {
    LogSnoc(begin.log, begin.next, done, evt);
    var item := SeqEvent(begin.next + |done|, evt);
    assert Numbered(begin.next, done + [evt]) == Numbered(begin.next, done) + [item];
    assert begin.sent + Numbered(begin.next, done) + [item] == begin.sent + Numbered(begin.next, done + [evt]);
  }

  lemma NothingDone(tenant: Option<string>, f: Frame, begin: TurnState, hasBus: bool, s: StoreState)
    requires |begin.log| <= EVENT_LOG_CAPACITY && (!hasBus ==> begin.sent == [])
    ensures StreamAfterCancel(begin, hasBus, []) == begin
    ensures StoreAfter(tenant, f, false, s, []) == s
  {
    assert begin.log + Numbered(begin.next, []) == begin.log;
    assert begin.sent + Numbered(begin.next, []) == begin.sent;
    SameRecord(s, tenant, f.taskId);
  }

  lemma StoreAfterHolds(tenant: Option<string>, f: Frame, isTurn: bool, s: StoreState, evs: seq<StreamResponse>)
    requires s.Valid()
    ensures GetTask(StoreAfter(tenant, f, isTurn, s, evs), tenant, f.taskId)
         == FoldEvents(GetTask(s, tenant, f.taskId), f, isTurn, evs)
    ensures GetTask(s, tenant, f.taskId).Some? ==> FoldEvents(GetTask(s, tenant, f.taskId), f, isTurn, evs).Some?
  {
    var cur := GetTask(s, tenant, f.taskId);
    FoldKeepsId(cur, f, isTurn, evs);
    RecordOverwrites(s, tenant, f.taskId, FoldEvents(cur, f, isTurn, evs), FoldEvents(cur, f, isTurn, evs));
  }

  lemma KeptSnoc(raw: seq<StreamResponse>, i: nat)
    requires i < |raw|
    ensures Filter(raw[..i + 1], Kept) == Filter(raw[..i], Kept) + (if Kept(raw[i]) then [raw[i]] else [])
  {
    assert raw[..i + 1] == raw[..i] + [raw[i]];
    FilterSnoc(raw[..i], raw[i], Kept);
  }

  lemma NoOutcomeNoClose(evs: seq<StreamResponse>)
    requires !HasOutcome(evs)
    ensures NoneStops(evs, Closes)
  {
  }

  lemma OutcomeSnoc(done: seq<StreamResponse>, evt: StreamResponse)
    requires NoneStops(done, Closes)
    ensures HasOutcome(done + [evt]) <==> HasOutcome(done) || evt.IsTurnOutcome()
    ensures StopsOnlyLast(done + [evt], Closes)
    ensures NoneStops(done + [evt], Closes) <==> !Closes(evt)
  {
    var longer := done + [evt];
    if HasOutcome(done) {
      var i :| 0 <= i < |done| && done[i].IsTurnOutcome();
      assert longer[i] == done[i];
    }
    assert longer[|done|] == evt;
  }

  /** The pump has looked at the first `i` events and kept `done` of them. */
  ghost predicate Looked(raw: seq<StreamResponse>, i: nat, done: seq<StreamResponse>, first: bool, sawOutcome: bool) {
    && i <= |raw| && done == Filter(raw[..i], Kept) && StopsOnlyLast(done, Closes)
    && (first <==> done == []) && (sawOutcome <==> HasOutcome(done))
  }

  lemma LookStarts(raw: seq<StreamResponse>)
    ensures Looked(raw, 0, [], true, false) && NoneStops([], Closes)
  {
    assert raw[..0] == [];
  }

  lemma LookOn(raw: seq<StreamResponse>, i: nat, done: seq<StreamResponse>, first: bool, sawOutcome: bool)
    requires Looked(raw, i, done, first, sawOutcome) && i < |raw| && NoneStops(done, Closes)
    ensures IsEmptyArtifactUpdate(raw[i]) ==> Looked(raw, i + 1, done, first, sawOutcome)
    ensures !IsEmptyArtifactUpdate(raw[i]) ==>
              && Looked(raw, i + 1, done + [raw[i]], false, sawOutcome || raw[i].IsTurnOutcome())
              && (NoneStops(done + [raw[i]], Closes) <==> !raw[i].ClosesStream())
  {
    KeptSnoc(raw, i);
    OutcomeSnoc(done, raw[i]);
  }

  lemma LookEnds(raw: seq<StreamResponse>, i: nat, done: seq<StreamResponse>, first: bool, sawOutcome: bool)
    requires Looked(raw, i, done, first, sawOutcome) && (i == |raw| || !NoneStops(done, Closes))
    ensures done == Processed(raw)
    ensures (first <==> Processed(raw) == []) && (sawOutcome <==> HasOutcome(Processed(raw)))
  {
    ProcessedPrefix(raw, i, done);
  }

  /** What the pump has looked at when its loop ends is the processed part of its input. */
  lemma ProcessedPrefix(raw: seq<StreamResponse>, i: nat, done: seq<StreamResponse>)
    requires i <= |raw| && done == Filter(raw[..i], Kept) && StopsOnlyLast(done, Closes)
    requires i == |raw| || (done != [] && Closes(done[|done| - 1]))
    ensures done == Processed(raw)
  {
    assert raw == raw[..i] + raw[i..];
    FilterConcat(raw[..i], raw[i..], Kept);
    PrefixOfCut(done, Filter(raw, Kept), Closes);
    if i == |raw| {
      assert raw[..i] == raw;
      CutOfWhole(done, Closes);
    }
  }

  // ---- What a turn has done after some events, as a fact about values ----

  /** Events under consecutive numbers. */
  function Numbered(start: nat, evs: seq<StreamResponse>): (r: seq<SeqEvent>)
    ensures |r| == |evs|
  {
    if evs == [] then []
    else
      var n := |evs| - 1;
      Numbered(start, evs[..n]) + [SeqEvent(start + n, evs[n])]
  }

  lemma NumberedSnoc(start: nat, evs: seq<StreamResponse>, evt: StreamResponse)
    ensures Numbered(start, evs + [evt]) == Numbered(start, evs) + [SeqEvent(start + |evs|, evt)]
  {
    assert (evs + [evt])[..|evs|] == evs;
  }

  datatype TurnState = TurnState(sent: seq<SeqEvent>, next: nat, log: seq<SeqEvent>)

  /** What goes on the bus with the next event: the announced task, if it is the first. */
  function AnnouncedWith(lead: Task, next: nat, first: bool, evt: StreamResponse): seq<SeqEvent> {
    if first && !evt.BareMessage? then [SeqEvent(next, TaskObject(lead))] else []
  }

  /** What one event does to the bus, the counter and the log, as PumpEvent does it. */
  function StreamAfterEvent(lead: Task, t: TurnState, first: bool, evt: StreamResponse): TurnState {
    var leads := AnnouncedWith(lead, t.next, first, evt);
    var item := SeqEvent(t.next + |leads|, evt);
    TurnState(t.sent + leads + [item], item.seqNo + 1, Pushed(t.log, item))
  }

  /** How many items of a turn's stream come before its events: the announced task. */
  function Leads(evs: seq<StreamResponse>): nat {
    if TaskShaped(evs) then 1 else 0
  }

  /** A log after `evs`, numbered from `start`. */
  function LogWith(log: seq<SeqEvent>, start: nat, evs: seq<StreamResponse>): seq<SeqEvent> {
    Latest(log + Numbered(start, evs))
  }

  /** What a whole turn that applies `evs` does to them, said without going through
      it: the bus carried the turn's stream, numbered without gaps, and the log grew by
      exactly the applied events under the same numbers. */
  function StreamAfterTurn(lead: Task, begin: TurnState, evs: seq<StreamResponse>): TurnState {
    var stream := TurnBus(lead, evs);
    TurnState(
      Numbered(begin.next, stream),
      begin.next + |stream|,
      LogWith(begin.log, begin.next + Leads(evs), evs))
  }

  /** What it does to the store: one record becomes the fold of the events. */
  function StoreAfter(tenant: Option<string>, f: Frame, isTurn: bool, s: StoreState, evs: seq<StreamResponse>)
    : StoreState
  {
    WithTask(s, tenant, f.taskId, FoldEvents(GetTask(s, tenant, f.taskId), f, isTurn, evs))
  }

  lemma AfterNothing(tenant: Option<string>, f: Frame, lead: Task, begin: TurnState, s: StoreState)
    requires begin.sent == [] && |begin.log| <= EVENT_LOG_CAPACITY
    ensures StreamAfterTurn(lead, begin, []) == begin
    ensures StoreAfter(tenant, f, true, s, []) == s
  {
    assert begin.log + Numbered(begin.next, []) == begin.log;
    SameRecord(s, tenant, f.taskId);
  }

  lemma SameRecord(s: StoreState, tenant: Option<string>, id: string)
    ensures WithTask(s, tenant, id, GetTask(s, tenant, id)) == s
  {
    var k := Key(TenantKey(tenant), id);
    if k in s.tasks {
      assert s.tasks[k := s.tasks[k]] == s.tasks;
    }
  }

  lemma RecordOverwrites(s: StoreState, tenant: Option<string>, id: string, t: Option<Task>, u: Option<Task>)
    requires t.Some? ==> u.Some?
    ensures WithTask(WithTask(s, tenant, id, t), tenant, id, u) == WithTask(s, tenant, id, u)
    ensures GetTask(WithTask(s, tenant, id, t), tenant, id) == if t.Some? then t else GetTask(s, tenant, id)
  {
  }

  lemma BusSnoc(lead: Task, done: seq<StreamResponse>, evt: StreamResponse)
    ensures done == [] ==>
              TurnBus(lead, done + [evt]) == if evt.BareMessage? then [evt] else [TaskObject(lead)] + [evt]
    ensures done != [] ==> TurnBus(lead, done + [evt]) == TurnBus(lead, done) + [evt]
  {
    if done != [] {
      assert (done + [evt])[0] == done[0];
    }
  }

  lemma StreamSnoc(lead: Task, start: nat, done: seq<StreamResponse>, evt: StreamResponse)
    ensures var stream := TurnBus(lead, done);
            var next := start + |stream|;
            var leads := AnnouncedWith(lead, next, done == [], evt);
            && Numbered(start, TurnBus(lead, done + [evt]))
               == Numbered(start, stream) + leads + [SeqEvent(next + |leads|, evt)]
            && |TurnBus(lead, done + [evt])| == |stream| + |leads| + 1
  {
    BusSnoc(lead, done, evt);
    if done != [] {
      NumberedSnoc(start, TurnBus(lead, done), evt);
    } else {
      NumberedSnoc(start, [], evt);
      NumberedSnoc(start, [], TaskObject(lead));
      NumberedSnoc(start, [TaskObject(lead)], evt);
    }
  }

  lemma LogSnoc(log: seq<SeqEvent>, start: nat, done: seq<StreamResponse>, evt: StreamResponse)
    ensures Pushed(LogWith(log, start, done), SeqEvent(start + |done|, evt)) == LogWith(log, start, done + [evt])
  {
    var item := SeqEvent(start + |done|, evt);
    NumberedSnoc(start, done, evt);
    assert log + Numbered(start, done + [evt]) == (log + Numbered(start, done)) + [item];
    PushedLatest(log + Numbered(start, done), item);
  }

  lemma LogWithNothing(log: seq<SeqEvent>, a: nat, b: nat)
    ensures LogWith(log, a, []) == LogWith(log, b, [])
  {
    assert Numbered(a, []) == Numbered(b, []);
  }

  /** Before the first event the numbers do not matter. */
  lemma FirstLogSnoc(log: seq<SeqEvent>, a: nat, b: nat, evt: StreamResponse)
    ensures Pushed(LogWith(log, a, []), SeqEvent(b, evt)) == LogWith(log, b, [evt])
  {
    LogSnoc(log, b, [], evt);
    LogWithNothing(log, a, b);
    assert [] + [evt] == [evt];
  }

  lemma NextNumber(lead: Task, done: seq<StreamResponse>, evt: StreamResponse)
    ensures |TurnBus(lead, done)| + (if done == [] && !evt.BareMessage? then 1 else 0) == Leads(done + [evt]) + |done|
  {
    BusSnoc(lead, done, evt);
  }

  lemma SentGrows(lead: Task, begin: TurnState, done: seq<StreamResponse>, evt: StreamResponse, item: SeqEvent)
    requires item == SeqEvent(begin.next + Leads(done + [evt]) + |done|, evt)
    ensures var t, w := StreamAfterTurn(lead, begin, done), StreamAfterTurn(lead, begin, done + [evt]);
            && w.sent == t.sent + AnnouncedWith(lead, t.next, done == [], evt) + [item]
            && t.next + |AnnouncedWith(lead, t.next, done == [], evt)| == item.seqNo && w.next == item.seqNo + 1
  {
    StreamSnoc(lead, begin.next, done, evt);
    NextNumber(lead, done, evt);
  }

  lemma LogGrows(lead: Task, begin: TurnState, done: seq<StreamResponse>, evt: StreamResponse, item: SeqEvent)
    requires item == SeqEvent(begin.next + Leads(done + [evt]) + |done|, evt)
    ensures StreamAfterTurn(lead, begin, done + [evt]).log == Pushed(StreamAfterTurn(lead, begin, done).log, item)
  {
    if done == [] {
      assert [] + [evt] == [evt];
      FirstLogSnoc(begin.log, begin.next, item.seqNo, evt);
    } else {
      assert (done + [evt])[0] == done[0];
      LogSnoc(begin.log, begin.next + Leads(done), done, evt);
    }
  }

  lemma Assembled(lead: Task, t: TurnState, first: bool, evt: StreamResponse, item: SeqEvent, w: TurnState)
    requires w.sent == t.sent + AnnouncedWith(lead, t.next, first, evt) + [item] && w.log == Pushed(t.log, item)
    requires item == SeqEvent(t.next + |AnnouncedWith(lead, t.next, first, evt)|, evt) && w.next == item.seqNo + 1
    ensures StreamAfterEvent(lead, t, first, evt) == w
  {
  }

  /** The one-event effect, repeated, is the whole-turn effect. */
  lemma StreamAfterTurnSnoc(lead: Task, begin: TurnState, done: seq<StreamResponse>, evt: StreamResponse)
    ensures StreamAfterEvent(lead, StreamAfterTurn(lead, begin, done), done == [], evt)
         == StreamAfterTurn(lead, begin, done + [evt])
  {
    var item := SeqEvent(begin.next + Leads(done + [evt]) + |done|, evt);
    SentGrows(lead, begin, done, evt, item);
    LogGrows(lead, begin, done, evt, item);
    Assembled(lead, StreamAfterTurn(lead, begin, done), done == [], evt, item,
              StreamAfterTurn(lead, begin, done + [evt]));
  }

  lemma StoreAfterSnoc(tenant: Option<string>, f: Frame, isTurn: bool, s: StoreState, done: seq<StreamResponse>,
                       evt: StreamResponse)
    requires s.Valid()
    ensures var mid := StoreAfter(tenant, f, isTurn, s, done);
            && WithTask(mid, tenant, f.taskId, Applied(GetTask(mid, tenant, f.taskId), f, isTurn && done == [], evt))
               == StoreAfter(tenant, f, isTurn, s, done + [evt])
  {
    var cur := GetTask(s, tenant, f.taskId);
    FoldKeepsId(cur, f, isTurn, done);
    FoldSnoc(cur, f, isTurn, done, evt);
    var mid := FoldEvents(cur, f, isTurn, done);
    RecordOverwrites(s, tenant, f.taskId, mid, Applied(mid, f, isTurn && done == [], evt));
  }
}
