/** The event pipeline as a concurrent protocol.

    Each task is a lane. A lane has at most one writer at a time - the background
    pump of a turn, or a cancel - and any number of subscribers, of callers blocked in
    SendMessage and of callers reading a SendStreamingMessage. Every atomic step of every
    participant is a step of the machine, steps of different participants interleave
    freely, and all lanes draw sequence numbers from one counter.

    `hist`, and the fields said to be history, only record what happened; no step
    depends on them. */
module Pipeline {
  import opened Types
  import opened Sequences
  import opened Turns
  import opened Events

  /** Where a writer stands. A number appears once it has been drawn. */
  datatype Phase =
    | Receiving
    | Received(evt: StreamResponse)
    | LeadTaken(no: nat, evt: StreamResponse)
    | Ready(evt: StreamResponse)
    | Taken(no: nat, evt: StreamResponse)
    | Appended(no: nat, evt: StreamResponse)
    | Stored(no: nat, evt: StreamResponse)
    | Ended
    | Unregistered

  datatype Writer =
    | NoWriter
    | Active(phase: Phase, first: bool, sawOutcome: bool, last: bool)

  /** One turn or one cancel: what it started from, and its bus. */
  datatype Epoch = Epoch(
    isTurn: bool,
    frame: Frame,
    before: Option<Task>,
    base: nat,             // history: how many events the log had ever taken
    bus: seq<SeqEvent>,    // everything ever sent on the bus
    open: bool)            // whether a sender of the bus is still alive

  datatype SubPhase =
    | Reading
    | Attaching(task: Task)
    | Snapshotting(task: Task)
    | Leading(task: Task)
    | Replaying(next: nat)
    | Live
    | IdleReplaying(next: nat, tail: SeqEvent)
    | Done
    | Refused

  datatype Sub = Sub(
    since: Option<nat>,
    phase: SubPhase,
    bus: Option<nat>,             // the epoch whose bus it is attached to
    pos: nat,                     // next bus item to read
    replay: seq<SeqEvent>,
    maxReplayed: Option<nat>,
    lead: Option<SeqEvent>,
    out: seq<SeqEvent>,           // delivered after the lead
    turns: nat,                   // history: turns and cancels that had begun when it read the task
    read: nat,                    // history: events the task it read had taken in
    begun: nat,                   // history: turns and cancels that had begun at attachment
    pos0: nat,                    // history: items already on the bus at attachment
    sent0: nat,                   // history: events already sent at attachment
    counter: nat,                 // history: the shared counter at attachment
    pending: Option<nat>,         // history: the number of an event in flight at attachment
    snap: nat,                    // history: length of `hist` at the snapshot
    numbered: nat,                // history: events that had a number when its task object got one
    gap: Option<nat>)             // history: how far it had delivered when it first skipped an event

  datatype WaitPhase =
    | Waiting
    | Woken(status: TaskStatus)
    | BusClosed
    | Answered(cause: Cause, answer: Answer)

  /** Why SendMessage stopped waiting: a final status, a bare message, the end of the
      bus, or - not asked to block - the first item at all. */
  datatype Cause = ByStatus(status: TaskStatus) | ByMessage | ByClose | AtOnce

  datatype Answer = TaskAnswer(task: Task) | MessageAnswer(message: Message) | NoAnswer

  /** How a client asked to be answered. */
  datatype SendOptions = SendOptions(blocking: bool, historyLength: Option<int>)

  datatype Waiter = Waiter(
    bus: nat,
    pos: nat,
    phase: WaitPhase,
    options: SendOptions,
    turns: nat,                   // history: how many turns and cancels had begun by the final read
    folded: nat,                  // history: how many events the record it read had taken in
    lossy: bool)                  // history: a receive skipped items

  /** A caller of SendStreamingMessage, on its turn's bus from the start. */
  datatype Streamer = Streamer(
    bus: nat,
    pos: nat,
    out: seq<SeqEvent>,
    over: bool,
    lossy: bool)                  // history: a receive skipped items

  datatype Lane = Lane(
    hist: seq<SeqEvent>,          // history: every event ever logged
    log: seq<SeqEvent>,
    store: Option<Task>,
    epochs: seq<Epoch>,
    registered: Option<nat>,
    writer: Writer,
    subs: seq<Sub>,
    waiters: seq<Waiter>,
    streamers: seq<Streamer>)

  const EmptyLane := Lane([], [], None, [], None, NoWriter, [], [], [])

  datatype LaneStep =
    | StartTurn(frame: Frame, send: Option<SendOptions>)
    | StartCancel(frame: Frame)
    | Recv(evt: StreamResponse)
    | EndOfEvents(at: DateTime)
    | DrawLead
    | SkipLead
    | SendLead
    | Draw
    | Append
    | PutStore
    | Send
    | Fail(reason: string, stamp: Stamp)
    | Unregister
    | Exit
    | NewSub(since: Option<nat>)
    | AdvanceSub(i: nat)
    | AdvanceWaiter(i: nat)
    | AdvanceStreamer(i: nat)

  function Current(lane: Lane): Epoch
    requires lane.epochs != []
  {
    lane.epochs[|lane.epochs| - 1]
  }

  predicate Writing(lane: Lane) {
    lane.writer.Active? && lane.epochs != []
  }

  function LeadOf(e: Epoch): Task {
    match e.before
    case Some(t) => t
    case None => Seeded(None, e.frame, true, Submitted)
  }

  predicate NeedsLead(lane: Lane)
    requires Writing(lane) && lane.writer.phase.Received?
  {
    Current(lane).isTurn && lane.writer.first && !lane.writer.phase.evt.BareMessage?
  }

  // ---- Which steps can happen ----

  predicate Enabled(lane: Lane, st: LaneStep) {
    match st
    case StartTurn(_, _) => lane.writer.NoWriter? && !IsTerminalTask(lane.store)
    case StartCancel(_) => lane.writer.NoWriter? && lane.store.Some? && !IsTerminalTask(lane.store)
    case Recv(evt) => Writing(lane) && lane.writer.phase.Receiving? && !evt.TaskObject?
    case EndOfEvents(_) => Writing(lane) && lane.writer.phase.Receiving?
    case DrawLead => Writing(lane) && lane.writer.phase.Received? && NeedsLead(lane)
    case SkipLead => Writing(lane) && lane.writer.phase.Received? && !NeedsLead(lane)
    case SendLead => Writing(lane) && lane.writer.phase.LeadTaken?
    case Draw => Writing(lane) && lane.writer.phase.Ready?
    case Append => Writing(lane) && lane.writer.phase.Taken?
    case PutStore => Writing(lane) && lane.writer.phase.Appended?
    case Send => Writing(lane) && lane.writer.phase.Stored?
    case Fail(_, _) =>
      Writing(lane) && lane.writer.phase.Ended? && Current(lane).isTurn && !lane.writer.sawOutcome && !lane.writer.last
    case Unregister => Writing(lane) && lane.writer.phase.Ended? && Current(lane).isTurn
    case Exit =>
      Writing(lane) && if Current(lane).isTurn then lane.writer.phase.Unregistered? else lane.writer.phase.Ended?
    case NewSub(_) => true
    case AdvanceSub(i) => i < |lane.subs|
    case AdvanceWaiter(i) => i < |lane.waiters|
    case AdvanceStreamer(i) => i < |lane.streamers|
  }

  /** Whether the step takes a number from the shared counter. */
  predicate Draws(lane: Lane, st: LaneStep)
    requires Enabled(lane, st)
  {
    match st
    case DrawLead => true
    case Draw => true
    case AdvanceSub(i) =>
      lane.subs[i].phase.Leading? && (lane.subs[i].since.None? || lane.subs[i].bus.None?)
    case _ => false
  }

  // ---- Writer steps ----

  function AtPhase(lane: Lane, phase: Phase): Lane
    requires lane.writer.Active?
  {
    lane.(writer := lane.writer.(phase := phase))
  }

  function OnBus(lane: Lane, item: SeqEvent): Lane
    requires lane.epochs != []
  {
    var e := Current(lane);
    lane.(epochs := lane.epochs[|lane.epochs| - 1 := e.(bus := e.bus + [item])])
  }

  /** A turn registers its bus; its caller waits for an answer, or streams. */
  function AfterStart(lane: Lane, isTurn: bool, f: Frame, send: Option<SendOptions>): Lane {
    var e := Epoch(isTurn, f, lane.store, |lane.hist|, [], isTurn);
    var started := lane.(epochs := lane.epochs + [e], writer := Active(Receiving, true, false, false));
    if isTurn then
      var registered := started.(registered := Some(|lane.epochs|));
      match send
      case Some(options) =>
        registered.(waiters := lane.waiters + [Waiter(|lane.epochs|, 0, Waiting, options, 0, 0, false)])
      case None => registered.(streamers := lane.streamers + [Streamer(|lane.epochs|, 0, [], false, false)])
    else started
  }

  function AfterRecv(lane: Lane, evt: StreamResponse): Lane
    requires Writing(lane)
  {
    if IsEmptyArtifactUpdate(evt) then lane
    else AtPhase(lane, if Current(lane).isTurn then Received(evt) else Ready(evt))
  }

  /** The executor has no more events. A cancel then makes sure of a terminal state. */
  function AfterEnd(lane: Lane, at: DateTime): Lane
    requires Writing(lane)
  {
    if Current(lane).isTurn || IsTerminalTask(lane.store) then AtPhase(lane, Ended)
    else lane.(writer := lane.writer.(phase := Ready(CanceledEvent(Current(lane).frame, at)), last := true))
  }

  function AfterAppend(lane: Lane): Lane
    requires Writing(lane) && lane.writer.phase.Taken?
  {
    var p := lane.writer.phase;
    var item := SeqEvent(p.no, p.evt);
    AtPhase(lane, Appended(p.no, p.evt)).(hist := lane.hist + [item], log := Pushed(lane.log, item))
  }

  function AfterPutStore(lane: Lane): Lane
    requires Writing(lane) && lane.writer.phase.Appended?
  {
    var p, e := lane.writer.phase, Current(lane);
    AtPhase(lane, Stored(p.no, p.evt)).(
      store := Applied(lane.store, e.frame, e.isTurn && lane.writer.first, p.evt))
  }

  function AfterSend(lane: Lane): Lane
    requires Writing(lane) && lane.writer.phase.Stored?
  {
    var p, w, isTurn := lane.writer.phase, lane.writer, Current(lane).isTurn;
    var sent := if isTurn then OnBus(lane, SeqEvent(p.no, p.evt)) else lane;
    sent.(writer := Active(
      if (isTurn && p.evt.ClosesStream()) || w.last then Ended else Receiving,
      false,
      w.sawOutcome || p.evt.IsTurnOutcome(),
      w.last))
  }

  function AfterExit(lane: Lane): Lane
    requires Writing(lane)
  {
    lane.(epochs := lane.epochs[|lane.epochs| - 1 := Current(lane).(open := false)], writer := NoWriter)
  }

  // ---- Subscriber steps ----

  /** Events logged but not yet on the bus. */
  function Behind(lane: Lane): nat {
    if lane.writer.Active? && (lane.writer.phase.Appended? || lane.writer.phase.Stored?) && lane.hist != [] then 1
    else 0
  }

  /** The number under which an event is still on its way to log or bus. */
  function InFlight(lane: Lane): Option<nat> {
    if lane.writer.Active? && (lane.writer.phase.Taken? || lane.writer.phase.Appended? || lane.writer.phase.Stored?)
    then Some(lane.writer.phase.no) else None
  }

  /** No event numbered up to `since` can still be sent on this lane. */
  predicate NothingUpToIsPending(next: nat, lane: Lane, since: nat) {
    since < next && (InFlight(lane).Some? ==> since < InFlight(lane).value)
  }

  function NewSubscriber(since: Option<nat>): Sub {
    Sub(since, Reading, None, 0, [], None, None, [], 0, 0, 0, 0, 0, 0, None, 0, 0, None)
  }

  function AfterRead(lane: Lane, sub: Sub): Sub {
    if lane.store.None? || IsTerminalTask(lane.store) then sub.(phase := Refused)
    else sub.(phase := Attaching(lane.store.value), turns := |lane.epochs|, read := Folded(lane))
  }

  function AfterAttach(next: nat, lane: Lane, sub: Sub): Sub
    requires sub.phase.Attaching?
  {
    var b := lane.registered;
    var items := if b.Some? && b.value < |lane.epochs| then |lane.epochs[b.value].bus| else 0;
    sub.(phase := Snapshotting(sub.phase.task),
         bus := b,
         pos := items,
         begun := |lane.epochs|,
         pos0 := items,
         sent0 := |lane.hist| - Behind(lane),
         counter := next,
         pending := InFlight(lane))
  }

  function AfterSnapshot(lane: Lane, sub: Sub): Sub
    requires sub.phase.Snapshotting?
  {
    var replay := Filter(lane.log, PastId(sub.since));
    sub.(phase := Leading(sub.phase.task),
         replay := replay,
         maxReplayed := if replay == [] then None else Some(replay[|replay| - 1].seqNo),
         snap := |lane.hist|)
  }

  /** How many events of the task have a number, logged or not. */
  function EventsNumbered(lane: Lane): nat {
    |lane.hist| + if lane.writer.Active? && lane.writer.phase.Taken? then 1 else 0
  }

  function AfterLead(next: nat, lane: Lane, sub: Sub): Sub
    requires sub.phase.Leading?
  {
    var shown := SeqEvent(next, TaskObject(sub.phase.task));
    var led := sub.(lead := if sub.since.None? then Some(shown) else sub.lead, numbered := EventsNumbered(lane));
    if sub.bus.Some? then led.(phase := Replaying(0))
    else if sub.since.None? then led.(phase := Done)
    else led.(phase := IdleReplaying(0, shown))
  }

  function AfterReplay(sub: Sub): Sub
    requires sub.phase.Replaying?
  {
    var i := sub.phase.next;
    if i < |sub.replay| then
      sub.(out := sub.out + [sub.replay[i]],
           phase := if sub.replay[i].evt.ClosesStream() then Done else Replaying(i + 1))
    else sub.(phase := Live)
  }

  /** How many leading items of a bus are not events: the announced task, if any. */
  function Off(e: Epoch): nat {
    if e.bus != [] && e.bus[0].evt.TaskObject? then 1 else 0
  }

  /** The history index of the first event a reader at `pos` has not passed. */
  function Idx(e: Epoch, pos: nat): nat {
    if pos <= Off(e) then e.base else e.base + pos - Off(e)
  }

  function Max(a: nat, b: nat): nat {
    if a < b then b else a
  }

  /** How much of the history the replay stands for: none if it is empty. */
  function Covered(sub: Sub): nat {
    if sub.replay == [] then 0 else sub.snap
  }

  /** A lagging receiver goes on at `pos`; events the replay did not cover are lost. */
  function AfterLag(e: Epoch, sub: Sub, pos: nat): Sub {
    var reached := Max(Covered(sub), Idx(e, sub.pos));
    var loses := sub.gap.None? && reached < Idx(e, pos);
    sub.(pos := pos, gap := if loses then Some(reached) else sub.gap)
  }

  /** One receive on the bus: catch up after a lag, read the next item - passing on
      what the replay did not already cover - or notice that the bus is closed. */
  function AfterReceive(e: Epoch, sub: Sub): Sub {
    if sub.pos + EVENT_LOG_CAPACITY < |e.bus| then
      AfterLag(e, sub, |e.bus| - EVENT_LOG_CAPACITY)
    else if sub.pos < |e.bus| then
      var item := e.bus[sub.pos];
      var read := sub.(pos := sub.pos + 1);
      if sub.maxReplayed.Some? && item.seqNo <= sub.maxReplayed.value then read
      else read.(out := sub.out + [item], phase := if item.evt.ClosesStream() then Done else Live)
    else if e.open then sub
    else sub.(phase := Done)
  }

  function AfterIdleReplay(sub: Sub): Sub
    requires sub.phase.IdleReplaying?
  {
    var i := sub.phase.next;
    if i < |sub.replay| then
      sub.(out := sub.out + [sub.replay[i]], phase := IdleReplaying(i + 1, sub.phase.tail))
    else sub.(out := sub.out + [sub.phase.tail], phase := Done)
  }

  function AfterSub(next: nat, lane: Lane, sub: Sub): Sub {
    match sub.phase
    case Reading => AfterRead(lane, sub)
    case Attaching(_) => AfterAttach(next, lane, sub)
    case Snapshotting(_) => AfterSnapshot(lane, sub)
    case Leading(_) => AfterLead(next, lane, sub)
    case Replaying(_) => AfterReplay(sub)
    case Live =>
      if sub.bus.Some? && sub.bus.value < |lane.epochs| then AfterReceive(lane.epochs[sub.bus.value], sub) else sub
    case IdleReplaying(_, _) => AfterIdleReplay(sub)
    case _ => sub
  }

  // ---- Steps of a SendStreamingMessage caller ----

  /** One receive: skip ahead after a lag, pass the next item on, or notice that the bus is
      closed. */
  function AfterStream(lane: Lane, s: Streamer): Streamer {
    if s.over || s.bus >= |lane.epochs| then s
    else
      var e := lane.epochs[s.bus];
      if s.pos + EVENT_LOG_CAPACITY < |e.bus| then s.(pos := |e.bus| - EVENT_LOG_CAPACITY, lossy := true)
      else if s.pos < |e.bus| then
        s.(pos := s.pos + 1, out := s.out + [e.bus[s.pos]], over := e.bus[s.pos].evt.ClosesStream())
      else if e.open then s
      else s.(over := true)
  }

  // ---- Steps of a SendMessage caller ----

  /** What a caller that does not block makes of the item it reads. */
  function AtOnceAnswer(f: Frame, evt: StreamResponse, historyLength: Option<int>): Answer {
    match evt
    case TaskObject(t) => TaskAnswer(Trimmed(t, historyLength))
    case BareMessage(m) => MessageAnswer(m)
    case StatusUpdate(u) =>
      TaskAnswer(Trimmed(NewTask(f.taskId, f.contextId, u.status.state, f.now).(status := u.status), historyLength))
    case ArtifactUpdate(u) =>
      TaskAnswer(Trimmed(NewTask(f.taskId, f.contextId, Working, f.now).(artifacts := [u.artifact]), historyLength))
  }

  function AnswerOf(cur: Option<Task>, historyLength: Option<int>): Answer {
    match cur
    case Some(t) => TaskAnswer(Trimmed(t, historyLength))
    case None => NoAnswer
  }

  /** Whether an event is logged but not yet in the record. */
  function BehindStore(w: Writer): nat {
    if w.Active? && w.phase.Appended? then 1 else 0
  }

  /** How many events of the task are folded into its record. */
  function Folded(lane: Lane): nat {
    if |lane.hist| < BehindStore(lane.writer) then 0 else |lane.hist| - BehindStore(lane.writer)
  }

  function AfterItem(f: Frame, w: Waiter, evt: StreamResponse): Waiter {
    match evt
    case BareMessage(m) => w.(phase := Answered(ByMessage, MessageAnswer(m)))
    case StatusUpdate(u) =>
      if u.status.state.IsFinalForBlockingSend() then w.(phase := Woken(u.status))
      else if w.options.blocking then w
      else w.(phase := Answered(AtOnce, AtOnceAnswer(f, evt, w.options.historyLength)))
    case _ =>
      if w.options.blocking then w
      else w.(phase := Answered(AtOnce, AtOnceAnswer(f, evt, w.options.historyLength)))
  }

  function AfterWait(lane: Lane, w: Waiter): Waiter {
    match w.phase
    case Waiting =>
      if w.bus >= |lane.epochs| then w
      else
        var e := lane.epochs[w.bus];
        if w.pos + EVENT_LOG_CAPACITY < |e.bus| then w.(pos := |e.bus| - EVENT_LOG_CAPACITY, lossy := true)
        else if w.pos < |e.bus| then
          AfterItem(e.frame, w.(pos := w.pos + 1), e.bus[w.pos].evt)
        else if e.open then w
        else w.(phase := BusClosed)
    case Woken(status) =>
      if w.bus >= |lane.epochs| then w
      else
        var f := lane.epochs[w.bus].frame;
        var found := lane.store.GetOr(NewTask(f.taskId, f.contextId, Submitted, f.now));
        w.(phase := Answered(ByStatus(status), AnswerOf(Some(found), w.options.historyLength)),
           turns := |lane.epochs|, folded := Folded(lane))
    case BusClosed =>
      w.(phase := Answered(ByClose, AnswerOf(lane.store, w.options.historyLength)),
         turns := |lane.epochs|, folded := Folded(lane))
    case Answered(_, _) => w
  }

  // ---- One step of a lane, and of everything ----

  function AfterStep(next: nat, lane: Lane, st: LaneStep): Lane
    requires Enabled(lane, st)
  {
    match st
    case StartTurn(f, send) => AfterStart(lane, true, f, send)
    case StartCancel(f) => AfterStart(lane, false, f, None)
    case Recv(evt) => AfterRecv(lane, evt)
    case EndOfEvents(at) => AfterEnd(lane, at)
    case DrawLead => AtPhase(lane, LeadTaken(next, lane.writer.phase.evt))
    case SkipLead => AtPhase(lane, Ready(lane.writer.phase.evt))
    case SendLead =>
      var item := SeqEvent(lane.writer.phase.no, TaskObject(LeadOf(Current(lane))));
      AtPhase(OnBus(lane, item), Ready(lane.writer.phase.evt))
    case Draw => AtPhase(lane, Taken(next, lane.writer.phase.evt))
    case Append => AfterAppend(lane)
    case PutStore => AfterPutStore(lane)
    case Send => AfterSend(lane)
    case Fail(reason, stamp) =>
      lane.(writer := lane.writer.(phase := Received(FailureEvent(Current(lane).frame, reason, stamp)), last := true))
    case Unregister => AtPhase(lane, Unregistered).(registered := None)
    case Exit => AfterExit(lane)
    case NewSub(since) => lane.(subs := lane.subs + [NewSubscriber(since)])
    case AdvanceSub(i) => lane.(subs := lane.subs[i := AfterSub(next, lane, lane.subs[i])])
    case AdvanceWaiter(i) => lane.(waiters := lane.waiters[i := AfterWait(lane, lane.waiters[i])])
    case AdvanceStreamer(i) => lane.(streamers := lane.streamers[i := AfterStream(lane, lane.streamers[i])])
  }

  datatype State = State(next: nat, lanes: map<string, Lane>, drawn: map<nat, string>)

  /** The counter starts at one; `drawn` is history: which task drew each number. */
  const Init := State(1, map[], map[])

  function LaneAt(s: State, id: string): Lane {
    if id in s.lanes then s.lanes[id] else EmptyLane
  }

  /** A step that cannot happen leaves everything as it is. */
  function Next(s: State, id: string, st: LaneStep): State {
    var lane := LaneAt(s, id);
    if !Enabled(lane, st) then s
    else
      var lanes := s.lanes[id := AfterStep(s.next, lane, st)];
      if Draws(lane, st) then State(s.next + 1, lanes, s.drawn[s.next := id])
      else State(s.next, lanes, s.drawn)
  }

  datatype Move = Move(id: string, st: LaneStep)

  /** The state after any interleaving of steps on any tasks. */
  function Run(moves: seq<Move>): State {
    if moves == [] then Init
    else
      var n := |moves| - 1;
      Next(Run(moves[..n]), moves[n].id, moves[n].st)
  }
}
