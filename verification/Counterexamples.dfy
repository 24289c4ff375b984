/** Why the hypotheses are there: what goes wrong without each of them, on reachable
    states of the pipeline where the machine can reach them. */
module Counterexamples {
  import opened Types
  import opened Requests
  import opened Sequences
  import opened Turns
  import opened Events
  import opened Pipeline
  import opened Subscribers
  import opened Store
  import opened ServerEngine
  import opened Delivery

  // ---- Traces ----

  ghost predicate Occurs(s: State) {
    exists moves :: Run(moves) == s
  }

  lemma ReachedInit()
    ensures Occurs(Init)
  {
    assert Run([]) == Init;
  }

  lemma ReachedNext(s: State, id: string, st: LaneStep)
    requires Occurs(s)
    ensures Occurs(Next(s, id, st))
  {
    var moves :| Run(moves) == s;
    var longer := moves + [Move(id, st)];
    assert longer[..|moves|] == moves;
    assert Run(longer) == Next(s, id, st);
  }

  /** One step on the only lane of a state. */
  lemma Step(s: State, id: string, lane: Lane, st: LaneStep) returns (s': State)
    requires Occurs(s) && LaneAt(s, id) == lane && Enabled(lane, st)
    ensures Occurs(s')
    ensures LaneAt(s', id) == AfterStep(s.next, lane, st)
    ensures s'.next == if Draws(lane, st) then s.next + 1 else s.next
  {
    s' := Next(s, id, st);
    ReachedNext(s, id, st);
  }

  const Blocking := SendOptions(true, None)

  function StatusEvent(f: Frame, state: TaskState): StreamResponse {
    StatusUpdate(TaskStatusUpdateEvent(f.taskId, f.contextId, TaskStatus(state, None, None), None))
  }

  /** A first turn whose first event, numbered 2 behind the announced task 1, is logged
      and stored but not yet on the bus. */
  function Unsent(f: Frame, evt: StreamResponse): Lane {
    var item := SeqEvent(2, evt);
    var lead := SeqEvent(1, TaskObject(Seeded(None, f, true, Submitted)));
    Lane([item], [item], Applied(None, f, true, evt),
         [Epoch(true, f, None, 0, [lead], true)], Some(0),
         Active(Stored(2, evt), true, false, false), [], [Waiter(0, 0, Waiting, Blocking, 0, 0, false)], [])
  }

  /** The same turn right after its task was announced. */
  function Announced(f: Frame, evt: StreamResponse): Lane {
    var lead := SeqEvent(1, TaskObject(Seeded(None, f, true, Submitted)));
    Lane([], [], None, [Epoch(true, f, None, 0, [lead], true)], Some(0),
         Active(Ready(evt), true, false, false), [], [Waiter(0, 0, Waiting, Blocking, 0, 0, false)], [])
  }

  lemma ReachAnnounced(f: Frame, evt: StreamResponse) returns (s: State)
    requires evt.StatusUpdate?
    ensures Occurs(s) && LaneAt(s, f.taskId) == Announced(f, evt) && s.next == 2
  {
    var id := f.taskId;
    ReachedInit();
    s := Step(Init, id, EmptyLane, StartTurn(f, Some(Blocking)));
    s := Step(s, id, LaneAt(s, id), Recv(evt));
    s := Step(s, id, LaneAt(s, id), DrawLead);
    s := Step(s, id, LaneAt(s, id), SendLead);
    assert LaneAt(s, id).epochs[0].bus == Announced(f, evt).epochs[0].bus;
    assert LaneAt(s, id).epochs == Announced(f, evt).epochs;
  }

  lemma ReachUnsent(f: Frame, evt: StreamResponse) returns (s: State)
    requires evt.StatusUpdate?
    ensures Occurs(s) && LaneAt(s, f.taskId) == Unsent(f, evt) && s.next == 3
  {
    var id := f.taskId;
    s := ReachAnnounced(f, evt);
    s := Step(s, id, LaneAt(s, id), Draw);
    s := Step(s, id, LaneAt(s, id), Append);
    s := Step(s, id, LaneAt(s, id), PutStore);
  }

  // ---- Resuming from an event that is logged but not yet sent ----

  lemma FilterOne(item: SeqEvent, since: Option<nat>)
    ensures Filter([item], PastId(since)) == if PastId(since)(item) then [item] else []
  {
    assert [item] == [] + [item];
    FilterSnoc([], item, PastId(since));
  }

  /** A subscription that has read the task. */
  function HasReadTask(lane: Lane, since: Option<nat>, task: Task): Sub {
    NewSubscriber(since).(phase := Attaching(task), turns := |lane.epochs|, read := Folded(lane))
  }

  /** One that has also attached to the registered bus. */
  function Attached(next: nat, lane: Lane, since: Option<nat>, task: Task): Sub {
    AfterAttach(next, lane, HasReadTask(lane, since, task))
  }

  function WithSub(lane: Lane, i: nat, sub: Sub): Lane
    requires i < |lane.subs|
  {
    lane.(subs := lane.subs[i := sub])
  }

  /** One step of a subscription that takes no number. */
  lemma SubStep(s0: State, id: string, lane: Lane, i: nat, sub: Sub) returns (s: State)
    requires Occurs(s0) && LaneAt(s0, id) == lane && i < |lane.subs| && !lane.subs[i].phase.Leading?
    requires sub == AfterSub(s0.next, lane, lane.subs[i])
    ensures Occurs(s) && s.next == s0.next && LaneAt(s, id) == WithSub(lane, i, sub)
  {
    s := Step(s0, id, lane, AdvanceSub(i));
  }

  /** A subscription is past its snapshot: with no number if it resumed on a bus. */
  lemma LeadStep(s0: State, id: string, lane: Lane, i: nat, sub: Sub) returns (s: State)
    requires Occurs(s0) && LaneAt(s0, id) == lane && i < |lane.subs| && lane.subs[i].phase.Leading?
    requires sub == AfterLead(s0.next, lane, lane.subs[i]) && sub.bus.Some?
    ensures Occurs(s) && s.next == (if sub.since.None? then s0.next + 1 else s0.next)
    ensures LaneAt(s, id) == WithSub(lane, i, sub)
  {
    s := Step(s0, id, lane, AdvanceSub(i));
  }

  lemma Attach(s0: State, id: string, lane: Lane, since: Option<nat>, task: Task) returns (s: State)
    requires Occurs(s0) && LaneAt(s0, id) == lane && lane.store == Some(task) && !IsTerminalTask(lane.store)
    ensures Occurs(s) && s.next == s0.next
    ensures LaneAt(s, id) == lane.(subs := lane.subs + [Attached(s0.next, lane, since, task)])
  {
    var i := |lane.subs|;
    s := Step(s0, id, lane, NewSub(since));
    s := SubStep(s, id, LaneAt(s, id), i, HasReadTask(lane, since, task));
    s := SubStep(s, id, LaneAt(s, id), i, Attached(s0.next, lane, since, task));
    assert LaneAt(s, id).subs == lane.subs + [Attached(s0.next, lane, since, task)];
  }

  /** What a subscription is once it has its snapshot, `replay`, and what comes before. */
  function Replayer(next: nat, lane: Lane, sub: Sub, replay: seq<SeqEvent>): Sub
    requires sub.phase.Snapshotting?
  {
    sub.(phase := Replaying(0), replay := replay, snap := |lane.hist|, numbered := EventsNumbered(lane),
         maxReplayed := if replay == [] then None else Some(replay[|replay| - 1].seqNo),
         lead := if sub.since.None? then Some(SeqEvent(next, TaskObject(sub.phase.task))) else sub.lead)
  }

  lemma TakeSnapshot(s0: State, id: string, lane: Lane, i: nat, replay: seq<SeqEvent>) returns (s: State)
    requires Occurs(s0) && LaneAt(s0, id) == lane && i < |lane.subs|
    requires lane.subs[i].phase.Snapshotting? && lane.subs[i].bus.Some?
    requires Filter(lane.log, PastId(lane.subs[i].since)) == replay
    ensures Occurs(s) && s.next == (if lane.subs[i].since.None? then s0.next + 1 else s0.next)
    ensures LaneAt(s, id) == WithSub(lane, i, Replayer(s0.next, lane, lane.subs[i], replay))
  {
    s := SubStep(s0, id, lane, i, AfterSnapshot(lane, lane.subs[i]));
    s := LeadStep(s, id, LaneAt(s, id), i, Replayer(s0.next, lane, lane.subs[i], replay));
  }

  /** A resumed subscription that finds nothing in the log goes straight to its bus. */
  lemma GoLive(s0: State, id: string, lane: Lane, i: nat) returns (s: State)
    requires Occurs(s0) && LaneAt(s0, id) == lane && i < |lane.subs|
    requires lane.subs[i].phase.Snapshotting? && lane.subs[i].bus.Some? && lane.subs[i].since.Some?
    requires Filter(lane.log, PastId(lane.subs[i].since)) == []
    ensures Occurs(s) && s.next == s0.next
    ensures LaneAt(s, id) == WithSub(lane, i, Replayer(s0.next, lane, lane.subs[i], []).(phase := Live))
  {
    s := TakeSnapshot(s0, id, lane, i, []);
    s := SubStep(s, id, LaneAt(s, id), i, Replayer(s0.next, lane, lane.subs[i], []).(phase := Live));
  }

  /** A stream may be given, by replay, an event that is logged but not yet sent. A
      client that reconnects with its id before it is sent is given it again: the
      number was still in flight, and the snapshot found nothing past it. */
  lemma UnsettledIdIsRedelivered(f: Frame)
    ensures exists s: State, id: string :: Occurs(s) && |LaneAt(s, id).subs| == 2
              && var first, second := LaneAt(s, id).subs[0], LaneAt(s, id).subs[1];
                 && Streaming(first) && first.since == None && |first.out| == 1
                 && second.since == Some(first.out[0].seqNo)
                 && second.replay == [] && second.pending == second.since && second.out == first.out
  {
    var s, first := Replay(f);
    s := Reconnect(s, f, first);
    assert Occurs(s) && |LaneAt(s, f.taskId).subs| == 2;
  }

  lemma Replay(f: Frame) returns (s: State, first: Sub)
    ensures var evt := StatusEvent(f, Working);
            && Occurs(s) && s.next == 4 && LaneAt(s, f.taskId) == Unsent(f, evt).(subs := [first])
            && Streaming(first) && first.since == None && first.out == [SeqEvent(2, evt)]
  {
    var id := f.taskId;
    s, first := ReplayNext(f);
    s := Step(s, id, LaneAt(s, id), AdvanceSub(0));
    first := LaneAt(s, id).subs[0];
  }

  lemma ReplayNext(f: Frame) returns (s: State, first: Sub)
    ensures var evt := StatusEvent(f, Working);
            && Occurs(s) && s.next == 4 && LaneAt(s, f.taskId) == Unsent(f, evt).(subs := [first])
            && first.bus.Some? && first.since == None && first.phase == Replaying(0)
            && first.replay == [SeqEvent(2, evt)] && first.out == []
  {
    var id, evt := f.taskId, StatusEvent(f, Working);
    s := ReachUnsent(f, evt);
    s := Attach(s, id, Unsent(f, evt), None, Unsent(f, evt).store.value);
    FilterOne(SeqEvent(2, evt), None);
    s := TakeSnapshot(s, id, LaneAt(s, id), 0, [SeqEvent(2, evt)]);
    first := LaneAt(s, id).subs[0];
  }

  lemma Reconnect(s0: State, f: Frame, first: Sub) returns (s: State)
    requires Occurs(s0) && s0.next == 4 && LaneAt(s0, f.taskId) == Unsent(f, StatusEvent(f, Working)).(subs := [first])
    ensures Occurs(s) && |LaneAt(s, f.taskId).subs| == 2 && LaneAt(s, f.taskId).subs[0] == first
    ensures var second := LaneAt(s, f.taskId).subs[1];
            && second.since == Some(2) && second.replay == [] && second.pending == Some(2)
            && second.out == [SeqEvent(2, StatusEvent(f, Working))]
  {
    var id := f.taskId;
    s := Resume(s0, f, first);
    s := SendUnsent(s, f, [first, AwaitingTwo]);
    s := Step(s, id, LaneAt(s, id), AdvanceSub(1));
  }

  lemma SendUnsent(s0: State, f: Frame, subs: seq<Sub>) returns (s: State)
    requires Occurs(s0) && LaneAt(s0, f.taskId) == Unsent(f, StatusEvent(f, Working)).(subs := subs)
    ensures Occurs(s) && LaneAt(s, f.taskId).subs == subs && |LaneAt(s, f.taskId).epochs| == 1
    ensures var bus := LaneAt(s, f.taskId).epochs[0].bus;
            |bus| == 2 && bus[1] == SeqEvent(2, StatusEvent(f, Working))
  {
    s := Step(s0, f.taskId, LaneAt(s0, f.taskId), Send);
  }

  /** A reconnected stream past its empty replay, waiting for the first bus item after
      the announced task. */
  const AwaitingTwo := Sub(Some(2), Live, Some(0), 1, [], None, None, [], 1, 1, 1, 1, 0, 4, Some(2), 1, 1, None)

  lemma Resume(s0: State, f: Frame, first: Sub) returns (s: State)
    requires Occurs(s0) && s0.next == 4 && LaneAt(s0, f.taskId) == Unsent(f, StatusEvent(f, Working)).(subs := [first])
    ensures Occurs(s)
    ensures LaneAt(s, f.taskId) == Unsent(f, StatusEvent(f, Working)).(subs := [first, AwaitingTwo])
  {
    var id, lane := f.taskId, LaneAt(s0, f.taskId);
    s := Attach(s0, id, lane, Some(2), lane.store.value);
    FilterOne(SeqEvent(2, StatusEvent(f, Working)), Some(2));
    s := GoLive(s, id, LaneAt(s, id), 1);
    AwaitsTwo(f, [first]);
  }

  lemma AwaitsTwo(f: Frame, subs: seq<Sub>)
    ensures var lane := Unsent(f, StatusEvent(f, Working)).(subs := subs);
            var sub := Attached(4, lane, Some(2), lane.store.value);
            Replayer(4, lane.(subs := lane.subs + [sub]), sub, []).(phase := Live) == AwaitingTwo
  {
  }

  // ---- Resuming from the number of a leading task ----

  /** A first turn that has sent a Working status. */
  function FirstSent(f: Frame): Lane {
    var lead := SeqEvent(1, TaskObject(Seeded(None, f, true, Submitted)));
    var item := SeqEvent(2, StatusEvent(f, Working));
    Lane([item], [item], Applied(None, f, true, StatusEvent(f, Working)),
         [Epoch(true, f, None, 0, [lead, item], true)], Some(0),
         Active(Receiving, false, false, false), [], [Waiter(0, 0, Waiting, Blocking, 0, 0, false)], [])
  }

  lemma ReachSent(f: Frame) returns (s: State)
    ensures Occurs(s) && LaneAt(s, f.taskId) == FirstSent(f) && s.next == 3
  {
    var id := f.taskId;
    s := ReachUnsent(f, StatusEvent(f, Working));
    s := Step(s, id, LaneAt(s, id), Send);
    assert LaneAt(s, id).epochs[0].bus == FirstSent(f).epochs[0].bus;
    assert LaneAt(s, id).epochs == FirstSent(f).epochs;
  }

  /** The same turn when its next event, numbered 3, is not yet logged. */
  function Drawn(f: Frame, evt: StreamResponse): Lane {
    FirstSent(f).(writer := Active(Taken(3, evt), false, false, false))
  }

  lemma ReachDrawn(f: Frame, evt: StreamResponse) returns (s: State)
    requires evt.StatusUpdate?
    ensures Occurs(s) && LaneAt(s, f.taskId) == Drawn(f, evt) && s.next == 4
  {
    s := ReachSent(f);
    s := DrawNext(s, f, FirstSent(f), evt);
  }

  /** The number of a leading task is drawn from the same counter, and transports offer
      it as an id to resume from. An event numbered before it may be logged after it:
      whoever resumes from the leading task is never given that event. Here it is a
      request for authorization, numbered 3; the leading task got number 4. */
  lemma LeadIdSkipsPending(f: Frame)
    ensures exists s: State, id: string :: Occurs(s) && |LaneAt(s, id).subs| == 2
              && var lane, missed := LaneAt(s, id), SeqEvent(3, StatusEvent(f, AuthRequired));
                 var first, second := lane.subs[0], lane.subs[1];
                 && Streaming(first) && first.gap.None? && first.lead.Some?
                 && CleanStream(second) && HasReadAll(lane, second) && second.since == Some(first.lead.value.seqNo)
                 && missed in lane.log && |lane.epochs| == 1 && missed in lane.epochs[0].bus
                 && missed !in first.out && second.out == []
  {
    var s, first := LeadBeforePending(f);
    s := LogPending(s, f, first);
    s := ResumeFromLead(s, f, first);
    assert Occurs(s) && |LaneAt(s, f.taskId).subs| == 2;
  }

  lemma LeadBeforePending(f: Frame) returns (s: State, first: Sub)
    ensures var evt := StatusEvent(f, AuthRequired);
            && Occurs(s) && s.next == 5 && LaneAt(s, f.taskId) == Drawn(f, evt).(subs := [first])
            && first.phase == Replaying(0) && first.bus.Some? && first.gap.None? && first.out == []
            && first.lead.Some? && first.lead.value.seqNo == 4
  {
    var id, evt := f.taskId, StatusEvent(f, AuthRequired);
    s := ReachDrawn(f, evt);
    s := Attach(s, id, Drawn(f, evt), None, Drawn(f, evt).store.value);
    FilterOne(SeqEvent(2, StatusEvent(f, Working)), None);
    s := TakeSnapshot(s, id, LaneAt(s, id), 0, [SeqEvent(2, StatusEvent(f, Working))]);
    first := LaneAt(s, id).subs[0];
  }

  /** The same turn once event 3 is logged, stored and sent. */
  predicate PendingSent(lane: Lane, f: Frame, first: Sub) {
    var one, two := SeqEvent(2, StatusEvent(f, Working)), SeqEvent(3, StatusEvent(f, AuthRequired));
    && lane.hist == [one, two] && lane.log == [one, two]
    && lane.store.Some? && !IsTerminalTask(lane.store)
    && lane.registered == Some(0) && |lane.epochs| == 1
    && |lane.epochs[0].bus| == 3 && lane.epochs[0].bus[2] == two
    && lane.writer == Active(Receiving, false, true, false) && lane.subs == [first]
  }

  lemma LogPending(s0: State, f: Frame, first: Sub) returns (s: State)
    requires Occurs(s0) && LaneAt(s0, f.taskId) == Drawn(f, StatusEvent(f, AuthRequired)).(subs := [first])
    ensures Occurs(s) && s.next == s0.next && PendingSent(LaneAt(s, f.taskId), f, first)
  {
    s := StoreDrawn(s0, f, StatusEvent(f, AuthRequired), [first]);
    s := Step(s, f.taskId, LaneAt(s, f.taskId), Send);
  }

  lemma StoreDrawn(s0: State, f: Frame, evt: StreamResponse, subs: seq<Sub>) returns (s: State)
    requires Occurs(s0) && LaneAt(s0, f.taskId) == Drawn(f, evt).(subs := subs)
    ensures Occurs(s) && s.next == s0.next
    ensures var events := [SeqEvent(2, StatusEvent(f, Working)), SeqEvent(3, evt)];
            LaneAt(s, f.taskId)
            == FirstSent(f).(subs := subs, hist := events, log := events,
                             store := Applied(FirstSent(f).store, f, false, evt),
                             writer := Active(Stored(3, evt), false, false, false))
  {
    var id := f.taskId;
    s := Step(s0, id, LaneAt(s0, id), Append);
    s := Step(s, id, LaneAt(s, id), PutStore);
  }

  lemma ResumeFromLead(s0: State, f: Frame, first: Sub) returns (s: State)
    requires Occurs(s0) && s0.next == 5 && PendingSent(LaneAt(s0, f.taskId), f, first)
    ensures Occurs(s)
    ensures var lane0, lane := LaneAt(s0, f.taskId), LaneAt(s, f.taskId);
            && lane == lane0.(subs := lane.subs) && |lane.subs| == 2 && lane.subs[0] == first
            && var second := lane.subs[1];
               second.since == Some(4) && CleanStream(second) && HasReadAll(lane, second) && second.out == []
  {
    var id, lane := f.taskId, LaneAt(s0, f.taskId);
    s := Attach(s0, id, lane, Some(4), lane.store.value);
    FilterNone(lane.log, PastId(Some(4)));
    s := GoLive(s, id, LaneAt(s, id), 1);
  }

  /** The leading task is read before the subscriber attaches, and the replay that makes up
      for the difference comes after it. A client that drops in between and resumes from
      the leading task has missed what was logged meanwhile. Here that is event 3; the
      leading task, numbered 4, still says Working. */
  lemma LeadIdSkipsLogged(f: Frame)
    ensures exists s: State, id: string :: Occurs(s) && |LaneAt(s, id).subs| == 2
              && var lane, missed := LaneAt(s, id), SeqEvent(3, StatusEvent(f, AuthRequired));
                 var first, second := lane.subs[0], lane.subs[1];
                 && Streaming(first) && first.gap.None? && first.lead.Some? && ShowsWorking(first.lead.value)
                 && CleanStream(second) && HasReadAll(lane, second) && second.since == Some(first.lead.value.seqNo)
                 && missed in lane.log && |lane.epochs| == 1 && missed in lane.epochs[0].bus
                 && missed in first.replay && missed !in first.out && second.out == []
  {
    var s, reader := ReadEarly(f);
    s := DrawNext(s, f, LaneAt(s, f.taskId), StatusEvent(f, AuthRequired));
    s := LogPending(s, f, reader);
    var first;
    s, first := LeadLate(s, f, reader);
    s := ResumeFromLead(s, f, first);
    assert Occurs(s) && |LaneAt(s, f.taskId).subs| == 2;
  }

  predicate ShowsWorking(item: SeqEvent) {
    item.evt.TaskObject? && item.evt.task.status.state == Working
  }

  lemma ReadEarly(f: Frame) returns (s: State, reader: Sub)
    ensures Occurs(s) && s.next == 3 && LaneAt(s, f.taskId) == FirstSent(f).(subs := [reader])
    ensures reader == HasReadTask(FirstSent(f), None, FirstSent(f).store.value)
  {
    var id := f.taskId;
    s := ReachSent(f);
    s := Step(s, id, LaneAt(s, id), NewSub(None));
    s := Step(s, id, LaneAt(s, id), AdvanceSub(0));
    reader := LaneAt(s, id).subs[0];
  }

  /** A subscriber that read the task before event 3 attaches after it, and is given the
      task. */
  lemma LeadLate(s0: State, f: Frame, reader: Sub) returns (s: State, first: Sub)
    requires Occurs(s0) && s0.next == 4 && PendingSent(LaneAt(s0, f.taskId), f, reader)
    requires reader == HasReadTask(FirstSent(f), None, FirstSent(f).store.value)
    ensures Occurs(s) && s.next == 5 && PendingSent(LaneAt(s, f.taskId), f, first)
    ensures first.phase == Replaying(0) && first.bus.Some? && first.gap.None? && first.out == []
    ensures first.replay == LaneAt(s, f.taskId).log
    ensures first.lead == Some(SeqEvent(4, TaskObject(FirstSent(f).store.value)))
  {
    var id, log := f.taskId, LaneAt(s0, f.taskId).log;
    FilterAll(log, PastId(None));
    s := SubStep(s0, id, LaneAt(s0, id), 0, AfterAttach(4, LaneAt(s0, id), reader));
    s := TakeSnapshot(s, id, LaneAt(s, id), 0, log);
    first := LaneAt(s, id).subs[0];
  }

  // ---- A closing event of an earlier turn ----

  /** Logs outlive turns. After a turn that ended in INPUT_REQUIRED, a fresh subscription
      to the next turn, while that is running, is given the old INPUT_REQUIRED and ends:
      of the turn it attached to it sees nothing. */
  lemma StaleInputRequiredEndsStream(f: Frame)
    ensures exists s: State, id: string :: Occurs(s) && |LaneAt(s, id).subs| == 1
              && var lane := LaneAt(s, id);
                 var sub := lane.subs[0];
                 && |lane.epochs| == 2 && lane.registered == Some(1) && lane.epochs[1].open
                 && sub.bus == Some(1) && CleanStream(sub) && sub.since == None && sub.phase.Done?
                 && StaleClosing(lane, sub, 0)
                 && lane.epochs[1].base == 1 && sub.out == lane.hist == [SeqEvent(2, StatusEvent(f, InputRequired))]
  {
    var s := SecondTurn(f);
    s := SubscribeToSecond(s, f);
    assert Occurs(s) && |LaneAt(s, f.taskId).subs| == 1;
  }

  /** A second turn that has just started after one that asked for input. */
  predicate SecondRuns(lane: Lane, f: Frame) {
    var item := SeqEvent(2, StatusEvent(f, InputRequired));
    && lane.hist == [item] && lane.log == [item]
    && lane.store.Some? && !IsTerminalTask(lane.store)
    && lane.registered == Some(1) && |lane.epochs| == 2
    && lane.epochs[1] == Epoch(true, f, lane.store, 1, [], true)
    && lane.writer == Active(Receiving, true, false, false) && lane.subs == []
  }

  predicate FirstIsOver(lane: Lane, f: Frame) {
    var item := SeqEvent(2, StatusEvent(f, InputRequired));
    && lane.hist == [item] && lane.log == [item]
    && lane.store.Some? && !IsTerminalTask(lane.store)
    && |lane.epochs| == 1 && lane.writer.NoWriter? && lane.subs == []
  }

  lemma FirstTurn(f: Frame) returns (s: State)
    ensures Occurs(s) && FirstIsOver(LaneAt(s, f.taskId), f)
  {
    var id := f.taskId;
    s := FirstTurnEnds(f);
    s := Step(s, id, LaneAt(s, id), Unregister);
    s := Step(s, id, LaneAt(s, id), Exit);
  }

  lemma FirstTurnEnds(f: Frame) returns (s: State)
    ensures Occurs(s)
    ensures var lane := LaneAt(s, f.taskId);
            && Writing(lane) && lane.writer.phase.Ended? && Current(lane).isTurn
            && FirstIsOver(lane.(writer := NoWriter), f)
  {
    s := ReachUnsent(f, StatusEvent(f, InputRequired));
    s := Step(s, f.taskId, LaneAt(s, f.taskId), Send);
  }

  lemma SecondTurn(f: Frame) returns (s: State)
    ensures Occurs(s) && SecondRuns(LaneAt(s, f.taskId), f)
  {
    s := FirstTurn(f);
    s := Step(s, f.taskId, LaneAt(s, f.taskId), StartTurn(f, None));
  }

  lemma SubscribeToSecond(s0: State, f: Frame) returns (s: State)
    requires Occurs(s0) && SecondRuns(LaneAt(s0, f.taskId), f)
    ensures Occurs(s)
    ensures var lane0, lane := LaneAt(s0, f.taskId), LaneAt(s, f.taskId);
            && lane == lane0.(subs := lane.subs) && |lane.subs| == 1
            && var sub := lane.subs[0];
               && sub.bus == Some(1) && CleanStream(sub) && sub.since == None && sub.phase.Done?
               && sub.snap == 1 && sub.out == lane.hist
  {
    var id, lane := f.taskId, LaneAt(s0, f.taskId);
    s := Attach(s0, id, lane, None, lane.store.value);
    FilterOne(lane.hist[0], None);
    s := TakeSnapshot(s, id, LaneAt(s, id), 0, lane.hist);
    s := SubStep(s, id, LaneAt(s, id), 0, AfterReplay(LaneAt(s, id).subs[0]));
  }

  // ---- AUTH_REQUIRED wakes a caller, but the turn goes on ----

  /** A blocked SendMessage woken by AUTH_REQUIRED may answer with a later status: the
      pump does write to the store again after that event. */
  lemma AuthRequiredAnswerIsLater(f: Frame)
    ensures exists s: State, id: string :: Occurs(s) && |LaneAt(s, id).waiters| == 1
              && var w := LaneAt(s, id).waiters[0];
                 && w.phase.Answered? && w.phase.cause.ByStatus? && w.phase.cause.status.state == AuthRequired
                 && w.phase.answer.TaskAnswer? && w.phase.answer.task.status.state == Completed
  {
    var s := WakeByAuth(f);
    s := Overtake(s, f);
    assert Occurs(s) && |LaneAt(s, f.taskId).waiters| == 1;
  }

  /** A running turn whose caller has just been woken by AUTH_REQUIRED. */
  predicate WokenByAuth(lane: Lane, f: Frame) {
    && lane.store.Some? && |lane.epochs| == 1 && Current(lane).isTurn && Current(lane).frame == f
    && lane.writer == Active(Receiving, false, true, false)
    && lane.waiters == [Waiter(0, 2, Woken(TaskStatus(AuthRequired, None, None)), Blocking, 0, 0, false)]
  }

  lemma WakeByAuth(f: Frame) returns (s: State)
    ensures Occurs(s) && WokenByAuth(LaneAt(s, f.taskId), f)
  {
    var id := f.taskId;
    s := SendAuth(f);
    s := Step(s, id, LaneAt(s, id), AdvanceWaiter(0));
    s := Step(s, id, LaneAt(s, id), AdvanceWaiter(0));
  }

  lemma SendAuth(f: Frame) returns (s: State)
    ensures Occurs(s)
    ensures var lane, evt := LaneAt(s, f.taskId), StatusEvent(f, AuthRequired);
            && lane.store.Some? && |lane.epochs| == 1 && Current(lane).isTurn && Current(lane).frame == f
            && |Current(lane).bus| == 2 && Current(lane).bus[0].evt.TaskObject? && Current(lane).bus[1].evt == evt
            && lane.writer == Active(Receiving, false, true, false)
            && lane.waiters == [Waiter(0, 0, Waiting, Blocking, 0, 0, false)]
  {
    s := ReachUnsent(f, StatusEvent(f, AuthRequired));
    s := Step(s, f.taskId, LaneAt(s, f.taskId), Send);
  }

  lemma TakeNext(s0: State, f: Frame) returns (s: State)
    requires Occurs(s0) && WokenByAuth(LaneAt(s0, f.taskId), f)
    ensures Occurs(s)
    ensures LaneAt(s, f.taskId)
         == LaneAt(s0, f.taskId).(writer := Active(Taken(s0.next, StatusEvent(f, Completed)), false, true, false))
  {
    var id := f.taskId;
    s := Step(s0, id, LaneAt(s0, id), Recv(StatusEvent(f, Completed)));
    s := Step(s, id, LaneAt(s, id), SkipLead);
    s := Step(s, id, LaneAt(s, id), Draw);
  }

  lemma Overtake(s0: State, f: Frame) returns (s: State)
    requires Occurs(s0) && WokenByAuth(LaneAt(s0, f.taskId), f)
    ensures Occurs(s) && |LaneAt(s, f.taskId).waiters| == 1
    ensures var w := LaneAt(s, f.taskId).waiters[0];
            && w.phase.Answered? && w.phase.cause == ByStatus(TaskStatus(AuthRequired, None, None))
            && w.phase.answer.TaskAnswer? && w.phase.answer.task.status.state == Completed
  {
    var id := f.taskId;
    s := TakeNext(s0, f);
    s := Step(s, id, LaneAt(s, id), Append);
    s := Step(s, id, LaneAt(s, id), PutStore);
    s := Step(s, id, LaneAt(s, id), AdvanceWaiter(0));
  }

  // ---- A writer that overlaps another ----

  /** One event keeps a terminal record terminal exactly if it is not a status update to
      a state that is not terminal. So a pump that goes on after a cancel, or a cancel
      override that reports Working after Completed, takes the record back. */
  lemma TerminalSurvivesEvent(cur: Task, f: Frame, first: bool, evt: StreamResponse)
    requires cur.status.state.IsTerminal()
    ensures IsTerminalTask(Applied(Some(cur), f, first, evt))
       <==> !(evt.StatusUpdate? && !evt.statusUpdate.status.state.IsTerminal())
  {
  }

  /** A message that continues this task, and would start a turn on it now. */
  predicate ContinuesTask(engine: Engine, req: SendMessageRequest, caller: Caller, tenant: Option<string>, id: string)
    reads engine, engine.store
  {
    && req.tenant == tenant && req.message.taskId == Some(id)
    && Admission(engine.store.State(), engine.agent, req, caller).Ok?
  }

  /** A cancel beside a running turn. Its pump has an event left: the cancel answers with
      a terminal task, the pump writes, and the record says Working. */
  method PumpOverwritesCanceled(engine: Engine, id: string, req: SendMessageRequest, caller: Caller,
                                emitted: seq<StreamResponse>, emptyMessageId: string)
    returns (answer: Task)
    requires engine.Valid() && ContinuesTask(engine, req, caller, req.tenant, id)
    modifies engine, engine.store
    ensures answer.status.state.IsTerminal()
    ensures engine.TaskAt(req.tenant, id).Some? && engine.TaskAt(req.tenant, id).value.status.state == Working
  {
    var started := engine.StartExecution(req, caller);
    var f, lead, bus := started.value.frame, started.value.lead, engine.buses[id];
    var canceled := engine.CancelTask(CancelTaskRequest(req.tenant, id, None), caller.visible, emitted, Ok(()),
                                      emptyMessageId, caller.now);
    answer := canceled.value;
    engine.PumpEvent(req.tenant, f, lead, bus, true, StatusEvent(f, Working));
  }

  /** Two turns started on one task: each registers its bus under the task's id. When the
      older one ends it removes what is registered there, which is the newer one's bus:
      that turn has sent nothing yet, and no one can attach to it or cancel it. */
  method CleanupDropsNewerBus(engine: Engine, id: string, first: SendMessageRequest, second: SendMessageRequest,
                              caller: Caller, raw: seq<StreamResponse>, ending: Ending, stamp: Stamp)
    returns (older: Bus, newer: Bus, between: map<string, Bus>)
    requires engine.Valid()
    requires ContinuesTask(engine, first, caller, first.tenant, id)
    requires ContinuesTask(engine, second, caller, first.tenant, id)
    modifies engine, engine.store
    ensures older != newer && id in between && between[id] == newer
    ensures newer.sent == [] && engine.buses == between - {id} && id !in engine.cancelTokens
  {
    var one := engine.StartExecution(first, caller);
    older := engine.buses[id];
    var two := engine.StartExecution(second, caller);
    newer, between := engine.buses[id], engine.buses;
    engine.Pump(first.tenant, one.value.frame, one.value.lead, older, raw, ending, stamp);
  }

  // ---- A reader that lags ----

  /** The first `n` events of a turn that keeps reporting Working. */
  function Reports(f: Frame, n: nat): seq<SeqEvent> {
    seq(n, i requires 0 <= i < n => SeqEvent(i + 2, StatusEvent(f, Working)))
  }

  /** Such a turn after `n` events, with one subscription. */
  predicate Reporting(lane: Lane, f: Frame, n: nat, sub: Sub) {
    var lead := SeqEvent(1, TaskObject(Seeded(None, f, true, Submitted)));
    && lane.hist == Reports(f, n)
    && lane.epochs == [Epoch(true, f, None, 0, [lead] + Reports(f, n), true)]
    && lane.writer == Active(Receiving, false, false, false)
    && lane.subs == [sub]
  }

  /** A subscription resumed from event 2, right behind it. */
  const AfterTwo := Sub(Some(2), Live, Some(0), 2, [], None, None, [], 1, 1, 1, 2, 1, 3, None, 1, 1, None)

  /** A receiver more than 256 items behind skips ahead, and what it skips it has lost:
      here it delivers event 4, so it can never deliver event 3, which is the first it
      owes. What it has delivered is no prefix of that. */
  lemma LagSkips(f: Frame)
    ensures exists s: State, id: string :: Occurs(s) && |LaneAt(s, id).subs| == 1
              && var lane := LaneAt(s, id);
                 var sub := lane.subs[0];
                 && sub.phase.Live? && sub.bus == Some(0) && |lane.epochs| == 1
                 && ResumesCleanly(sub) && sub.gap == Some(1)
                 && EventsOf(sub.out) == sub.out == [SeqEvent(4, StatusEvent(f, Working))]
                 && Owed(lane, sub) != [] && Owed(lane, sub)[0] == SeqEvent(3, StatusEvent(f, Working))
  {
    var id := f.taskId;
    var s := ReachReporting(f);
    s := ReportMore(s, f, EVENT_LOG_CAPACITY + 2);
    s := ReadLate(s, f);
    OwesFromThree(LaneAt(s, id), f);
    OneEvent(SeqEvent(4, StatusEvent(f, Working)));
    assert Occurs(s) && |LaneAt(s, id).subs| == 1;
  }

  lemma OneEvent(item: SeqEvent)
    requires IsEvent(item)
    ensures EventsOf([item]) == [item]
  {
    FilterAll([item], IsEvent);
  }

  lemma ReadLate(s0: State, f: Frame) returns (s: State)
    requires Occurs(s0) && Reporting(LaneAt(s0, f.taskId), f, EVENT_LOG_CAPACITY + 2, AfterTwo)
    ensures Occurs(s)
    ensures var out := [SeqEvent(4, StatusEvent(f, Working))];
            Reporting(LaneAt(s, f.taskId), f, EVENT_LOG_CAPACITY + 2, AfterTwo.(pos := 4, out := out, gap := Some(1)))
  {
    var id, e := f.taskId, LaneAt(s0, f.taskId).epochs[0];
    assert |e.bus| == EVENT_LOG_CAPACITY + 3 && e.bus[3] == SeqEvent(4, StatusEvent(f, Working));
    s := Step(s0, id, LaneAt(s0, id), AdvanceSub(0));
    assert LaneAt(s, id).subs[0] == AfterTwo.(pos := 3, gap := Some(1));
    s := Step(s, id, LaneAt(s, id), AdvanceSub(0));
    assert LaneAt(s, id).subs[0].out == [e.bus[3]];
  }

  lemma OwesFromThree(lane: Lane, f: Frame)
    requires lane.hist == Reports(f, EVENT_LOG_CAPACITY + 2) && |lane.epochs| == 1 && lane.epochs[0].open
    requires |lane.subs| == 1
    requires var sub := lane.subs[0];
             sub.bus == Some(0) && sub.since == Some(2) && sub.snap == 1
    ensures Owed(lane, lane.subs[0]) == lane.hist[1..]
  {
    assert lane.hist[0..|lane.hist|] == lane.hist;
    PastStartsAt(lane.hist, Some(2), 1);
  }

  lemma ReachReporting(f: Frame) returns (s: State)
    ensures Occurs(s) && s.next == 3 && Reporting(LaneAt(s, f.taskId), f, 1, AfterTwo)
  {
    var id := f.taskId;
    s := ReachSent(f);
    s := Attach(s, id, FirstSent(f), Some(2), FirstSent(f).store.value);
    s := ResumeAfterTwo(s, f);
    OneReport(f);
  }

  lemma ResumeAfterTwo(s0: State, f: Frame) returns (s: State)
    requires Occurs(s0) && s0.next == 3
    requires var lane := FirstSent(f);
             LaneAt(s0, f.taskId) == lane.(subs := [Attached(3, lane, Some(2), lane.store.value)])
    ensures Occurs(s) && s.next == 3 && LaneAt(s, f.taskId) == FirstSent(f).(subs := [AfterTwo])
  {
    var id := f.taskId;
    FilterOne(SeqEvent(2, StatusEvent(f, Working)), Some(2));
    s := GoLive(s0, id, LaneAt(s0, id), 0);
  }

  lemma OneReport(f: Frame)
    ensures Reporting(FirstSent(f).(subs := [AfterTwo]), f, 1, AfterTwo)
  {
    var lead := SeqEvent(1, TaskObject(Seeded(None, f, true, Submitted)));
    assert Reports(f, 1) == [SeqEvent(2, StatusEvent(f, Working))];
    assert [lead] + Reports(f, 1) == FirstSent(f).epochs[0].bus;
  }

  lemma {:induction false} ReportMore(s0: State, f: Frame, n: nat) returns (s: State)
    requires Occurs(s0) && s0.next == 3 && Reporting(LaneAt(s0, f.taskId), f, 1, AfterTwo) && n > 0
    ensures Occurs(s) && s.next == n + 2 && Reporting(LaneAt(s, f.taskId), f, n, AfterTwo)
  {
    if n == 1 {
      s := s0;
    } else {
      s := ReportMore(s0, f, n - 1);
      s := ReportOne(s, f, n - 1);
    }
  }

  lemma ReportOne(s0: State, f: Frame, n: nat) returns (s: State)
    requires Occurs(s0) && s0.next == n + 2 && Reporting(LaneAt(s0, f.taskId), f, n, AfterTwo)
    ensures Occurs(s) && s.next == n + 3 && Reporting(LaneAt(s, f.taskId), f, n + 1, AfterTwo)
  {
    s := DrawNext(s0, f, LaneAt(s0, f.taskId), StatusEvent(f, Working));
    s := SendDrawn(s, f, n, LaneAt(s0, f.taskId));
  }

  /** A running turn takes another event and draws its number. */
  lemma DrawNext(s0: State, f: Frame, lane: Lane, evt: StreamResponse) returns (s: State)
    requires Occurs(s0) && LaneAt(s0, f.taskId) == lane && lane.epochs != [] && Current(lane).isTurn
    requires evt.StatusUpdate? && lane.writer == Active(Receiving, false, false, false)
    ensures Occurs(s) && s.next == s0.next + 1
    ensures LaneAt(s, f.taskId) == lane.(writer := Active(Taken(s0.next, evt), false, false, false))
  {
    var id := f.taskId;
    s := Step(s0, id, lane, Recv(evt));
    s := Step(s, id, LaneAt(s, id), SkipLead);
    s := Step(s, id, LaneAt(s, id), Draw);
  }

  lemma SendDrawn(s0: State, f: Frame, n: nat, lane: Lane) returns (s: State)
    requires Occurs(s0) && s0.next == n + 3 && Reporting(lane, f, n, AfterTwo)
    requires LaneAt(s0, f.taskId)
          == lane.(writer := Active(Taken(n + 2, StatusEvent(f, Working)), false, false, false))
    ensures Occurs(s) && s.next == n + 3 && Reporting(LaneAt(s, f.taskId), f, n + 1, AfterTwo)
  {
    var id, item := f.taskId, SeqEvent(n + 2, StatusEvent(f, Working));
    s := Step(s0, id, LaneAt(s0, id), Append);
    s := Step(s, id, LaneAt(s, id), PutStore);
    s := Step(s, id, LaneAt(s, id), Send);
    assert Reports(f, n + 1) == Reports(f, n) + [item];
    assert LaneAt(s, id).epochs[0].bus == lane.epochs[0].bus + [item];
    MoreReports(f, n);
  }

  lemma MoreReports(f: Frame, n: nat)
    ensures var lead := SeqEvent(1, TaskObject(Seeded(None, f, true, Submitted)));
            [lead] + Reports(f, n) + [SeqEvent(n + 2, StatusEvent(f, Working))] == [lead] + Reports(f, n + 1)
  {
  }

}
