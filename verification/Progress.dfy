/** Nobody gets stuck: from every reachable state each reader comes, by its own steps alone,
    to the end of what was sent to it, and each turn or cancel to its end. */
module Progress {
  import opened Types
  import opened Turns
  import opened Pipeline
  import opened PipelineInvariant
  import opened Subscribers
  import opened Waiters
  import opened Streamers
  import opened Reachable
  import opened Delivery
  import opened SerialRuns

  /** The same move, `n` times. */
  function Repeated(m: Move, n: nat): seq<Move> {
    seq(n, i => m)
  }

  lemma RepeatedOn(moves: seq<Move>, m: Move, n: nat)
    ensures moves + Repeated(m, n + 1) == (moves + [m]) + Repeated(m, n)
    ensures moves + Repeated(m, 0) == moves
  {
  }

  // ---- Subscribers ----

  /** It was refused, its stream is over, or it has read all of a bus that is still open. */
  predicate SubThrough(lane: Lane, i: nat) {
    && i < |lane.subs|
    && var sub := lane.subs[i];
    && match sub.phase
       case Refused => true
       case Done => true
       case Live =>
         && sub.bus.Some? && sub.bus.value < |lane.epochs|
         && lane.epochs[sub.bus.value].open && sub.pos == |lane.epochs[sub.bus.value].bus|
       case _ => false
  }

  /** Nothing has changed but one subscription. */
  predicate OnlySub(lane: Lane, lane': Lane, i: nat) {
    i < |lane.subs| == |lane'.subs| && lane' == lane.(subs := lane.subs[i := lane'.subs[i]])
  }

  function Stage(phase: SubPhase): nat {
    match phase
    case Reading => 6
    case Attaching(_) => 5
    case Snapshotting(_) => 4
    case Leading(_) => 3
    case Replaying(_) => 2
    case Live => 1
    case IdleReplaying(_, _) => 1
    case _ => 0
  }

  /** What is left to read in its stage. */
  function Left(lane: Lane, sub: Sub): int {
    match sub.phase
    case Replaying(k) => |sub.replay| - k
    case IdleReplaying(k, _) => |sub.replay| - k
    case Live =>
      if sub.bus.Some? && sub.bus.value < |lane.epochs| then |lane.epochs[sub.bus.value].bus| - sub.pos else 0
    case _ => 0
  }

  predicate InRange(lane: Lane, sub: Sub) {
    match sub.phase
    case Replaying(k) => k <= |sub.replay|
    case IdleReplaying(k, _) => k <= |sub.replay|
    case Live => sub.bus.Some? && sub.bus.value < |lane.epochs| && sub.pos <= |lane.epochs[sub.bus.value].bus|
    case _ => true
  }

  lemma SubInRange(next: nat, lane: Lane, sub: Sub)
    requires SubInv(next, lane, sub)
    ensures InRange(lane, sub)
  {
  }

  ghost predicate MovedOn(lane: Lane, sub: Sub, sub': Sub) {
    || Stage(sub'.phase) < Stage(sub.phase)
    || (Stage(sub'.phase) == Stage(sub.phase) && 0 <= Left(lane, sub') < Left(lane, sub))
  }

  lemma ReceiveMovesOn(lane: Lane, sub: Sub)
    requires sub.phase.Live? && InRange(lane, sub)
    requires sub.pos < |lane.epochs[sub.bus.value].bus| || !lane.epochs[sub.bus.value].open
    ensures MovedOn(lane, sub, AfterReceive(lane.epochs[sub.bus.value], sub))
  {
  }

  lemma SubMovesOn(next: nat, lane: Lane, i: nat, sub': Sub)
    requires i < |lane.subs| && InRange(lane, lane.subs[i]) && !SubThrough(lane, i)
    requires sub' == AfterSub(next, lane, lane.subs[i])
    ensures MovedOn(lane, lane.subs[i], sub')
  {
    if lane.subs[i].phase.Live? {
      ReceiveMovesOn(lane, lane.subs[i]);
    }
  }

  lemma SameEpochsSameLeft(lane: Lane, lane': Lane, sub: Sub)
    requires lane'.epochs == lane.epochs
    ensures Left(lane', sub) == Left(lane, sub)
  {
  }

  lemma MovesOnHere(next: nat, lane: Lane, i: nat, sub: Sub, sub': Sub, lane': Lane)
    requires i < |lane.subs| && sub == lane.subs[i] && SubInv(next, lane, sub) && !SubThrough(lane, i)
    requires sub' == AfterSub(next, lane, sub) && lane' == lane.(subs := lane.subs[i := sub'])
    ensures OnlySub(lane, lane', i) && MovedOn(lane', sub, sub')
  {
    SubInRange(next, lane, sub);
    SubMovesOn(next, lane, i, sub');
    SameEpochsSameLeft(lane, lane', sub);
    SameEpochsSameLeft(lane, lane', sub');
  }

  lemma MovesOnIn(moves: seq<Move>, id: string, i: nat)
    requires i < |LaneAt(Run(moves), id).subs| && !SubThrough(LaneAt(Run(moves), id), i)
    ensures var lane, lane' := LaneAt(Run(moves), id), LaneAt(Run(moves + [Move(id, AdvanceSub(i))]), id);
            OnlySub(lane, lane', i) && MovedOn(lane', lane.subs[i], lane'.subs[i])
    ensures Left(LaneAt(Run(moves + [Move(id, AdvanceSub(i))]), id), LaneAt(Run(moves), id).subs[i])
         == Left(LaneAt(Run(moves), id), LaneAt(Run(moves), id).subs[i])
  {
    ReachableSub(moves, id, i);
    RunOn(moves, Move(id, AdvanceSub(i)));
    AdvanceHere(Run(moves), id, i);
    var lane, lane' := LaneAt(Run(moves), id), LaneAt(Run(moves + [Move(id, AdvanceSub(i))]), id);
    MovesOnHere(Run(moves).next, lane, i, lane.subs[i], lane'.subs[i], lane');
    SameEpochsSameLeft(lane, lane', lane.subs[i]);
  }

  /** A subscriber's stage, and a bound on what is left to read in it. */
  predicate Ranked(lane: Lane, i: nat, stage: nat, left: nat) {
    i < |lane.subs| && Stage(lane.subs[i].phase) == stage && Left(lane, lane.subs[i]) <= left
  }

  lemma RankFalls(moves: seq<Move>, id: string, i: nat, stage: nat, left: nat) returns (stage': nat, left': nat)
    requires Ranked(LaneAt(Run(moves), id), i, stage, left) && !SubThrough(LaneAt(Run(moves), id), i)
    ensures OnlySub(LaneAt(Run(moves), id), LaneAt(Run(moves + [Move(id, AdvanceSub(i))]), id), i)
    ensures Ranked(LaneAt(Run(moves + [Move(id, AdvanceSub(i))]), id), i, stage', left')
    ensures stage' < stage || (stage' == stage && left' < left)
  {
    MovesOnIn(moves, id, i);
    var lane' := LaneAt(Run(moves + [Move(id, AdvanceSub(i))]), id);
    stage' := Stage(lane'.subs[i].phase);
    left' := if Left(lane', lane'.subs[i]) < 0 then 0 else Left(lane', lane'.subs[i]);
  }

  lemma OnlySubOn(lane: Lane, mid: Lane, lane': Lane, i: nat)
    requires OnlySub(lane, mid, i) && OnlySub(mid, lane', i)
    ensures OnlySub(lane, lane', i)
  {
  }

  lemma NoneMoved(lane: Lane, i: nat)
    requires i < |lane.subs|
    ensures OnlySub(lane, lane, i)
  {
  }

  lemma {:induction false} SubGetsThere(moves: seq<Move>, id: string, i: nat, stage: nat, left: nat) returns (n: nat)
    requires Ranked(LaneAt(Run(moves), id), i, stage, left)
    ensures var lane := LaneAt(Run(moves), id);
            var lane' := LaneAt(Run(moves + Repeated(Move(id, AdvanceSub(i)), n)), id);
            OnlySub(lane, lane', i) && SubThrough(lane', i)
    decreases stage, left
  {
    var m, lane := Move(id, AdvanceSub(i)), LaneAt(Run(moves), id);
    if SubThrough(lane, i) {
      n := 0;
      RepeatedOn(moves, m, 0);
      NoneMoved(lane, i);
    } else {
      var stage', left' := RankFalls(moves, id, i, stage, left);
      n := SubGetsThere(moves + [m], id, i, stage', left');
      RepeatedOn(moves, m, n);
      OnlySubOn(lane, LaneAt(Run(moves + [m]), id), LaneAt(Run(moves + [m] + Repeated(m, n)), id), i);
      n := n + 1;
    }
  }

  /** From every reachable state a subscriber comes, by its own steps alone, to the end of
      its bus, and to the end of its stream if the bus is closed. */
  lemma SubscribersGetThere(moves: seq<Move>, id: string, i: nat)
    requires i < |LaneAt(Run(moves), id).subs|
    ensures exists n: nat ::
              var lane' := LaneAt(Run(moves + Repeated(Move(id, AdvanceSub(i)), n)), id);
              OnlySub(LaneAt(Run(moves), id), lane', i) && SubThrough(lane', i)
  {
    var lane := LaneAt(Run(moves), id);
    var left := if Left(lane, lane.subs[i]) < 0 then 0 else Left(lane, lane.subs[i]);
    var n := SubGetsThere(moves, id, i, Stage(lane.subs[i].phase), left);
  }

  /** A subscription is refused exactly if there is no task, or it is in a terminal state. */
  lemma RefusedExactly(moves: seq<Move>, id: string, i: nat)
    requires i < |LaneAt(Run(moves), id).subs| && LaneAt(Run(moves), id).subs[i].phase.Reading?
    ensures var store := LaneAt(Run(moves), id).store;
            var sub := LaneAt(Run(moves + [Move(id, AdvanceSub(i))]), id).subs[i];
            if store.None? || store.value.status.state in {Completed, Failed, Canceled, Rejected}
            then sub.phase.Refused? else sub.phase == Attaching(store.value)
  {
    RunOn(moves, Move(id, AdvanceSub(i)));
    AdvanceHere(Run(moves), id, i);
  }

  // ---- Callers of SendMessage and of SendStreamingMessage ----

  predicate WaiterThrough(lane: Lane, i: nat) {
    && i < |lane.waiters|
    && var w := lane.waiters[i];
    && (w.phase.Answered?
        || (w.phase.Waiting? && w.bus < |lane.epochs| && lane.epochs[w.bus].open && w.pos == |lane.epochs[w.bus].bus|))
  }

  predicate OnlyWaiter(lane: Lane, lane': Lane, i: nat) {
    i < |lane.waiters| == |lane'.waiters| && lane' == lane.(waiters := lane.waiters[i := lane'.waiters[i]])
  }

  function WaitLeft(lane: Lane, w: Waiter): int {
    match w.phase
    case Waiting => 2 + if w.bus < |lane.epochs| then |lane.epochs[w.bus].bus| - w.pos else 0
    case Answered(_, _) => 0
    case _ => 1
  }

  lemma WaiterMovesOn(lane: Lane, i: nat, w': Waiter)
    requires i < |lane.waiters| && WaitInv(lane, lane.waiters[i]) && !WaiterThrough(lane, i)
    requires w' == AfterWait(lane, lane.waiters[i])
    ensures 0 <= WaitLeft(lane, w') < WaitLeft(lane, lane.waiters[i])
  {
  }

  lemma ReachableWait(moves: seq<Move>, id: string, i: nat)
    requires i < |LaneAt(Run(moves), id).waiters|
    ensures WaitInv(LaneAt(Run(moves), id), LaneAt(Run(moves), id).waiters[i])
  {
    AlwaysGood(moves, id);
  }

  lemma AdvanceWaiterHere(s: State, id: string, i: nat)
    requires i < |LaneAt(s, id).waiters|
    ensures var lane, s' := LaneAt(s, id), Next(s, id, AdvanceWaiter(i));
            LaneAt(s', id) == lane.(waiters := lane.waiters[i := AfterWait(lane, lane.waiters[i])])
  {
  }

  lemma {:induction false} WaiterGetsThere(moves: seq<Move>, id: string, i: nat) returns (n: nat)
    requires i < |LaneAt(Run(moves), id).waiters|
    ensures var lane := LaneAt(Run(moves), id);
            var lane' := LaneAt(Run(moves + Repeated(Move(id, AdvanceWaiter(i)), n)), id);
            OnlyWaiter(lane, lane', i) && WaiterThrough(lane', i)
    decreases WaitLeft(LaneAt(Run(moves), id), LaneAt(Run(moves), id).waiters[i])
  {
    var m, lane := Move(id, AdvanceWaiter(i)), LaneAt(Run(moves), id);
    if WaiterThrough(lane, i) {
      n := 0;
      RepeatedOn(moves, m, 0);
    } else {
      ReachableWait(moves, id, i);
      RunOn(moves, m);
      AdvanceWaiterHere(Run(moves), id, i);
      WaiterMovesOn(lane, i, LaneAt(Run(moves + [m]), id).waiters[i]);
      n := WaiterGetsThere(moves + [m], id, i);
      RepeatedOn(moves, m, n);
      n := n + 1;
    }
  }

  /** From every reachable state a caller of SendMessage comes, by its own steps alone, to
      its answer, unless it has read all of a bus that is still open. */
  lemma WaitersGetThere(moves: seq<Move>, id: string, i: nat)
    requires i < |LaneAt(Run(moves), id).waiters|
    ensures exists n: nat ::
              var lane' := LaneAt(Run(moves + Repeated(Move(id, AdvanceWaiter(i)), n)), id);
              OnlyWaiter(LaneAt(Run(moves), id), lane', i) && WaiterThrough(lane', i)
  {
    var n := WaiterGetsThere(moves, id, i);
  }

  predicate StreamerThrough(lane: Lane, i: nat) {
    && i < |lane.streamers|
    && var s := lane.streamers[i];
    && (s.over || (s.bus < |lane.epochs| && lane.epochs[s.bus].open && s.pos == |lane.epochs[s.bus].bus|))
  }

  predicate OnlyStreamer(lane: Lane, lane': Lane, i: nat) {
    i < |lane.streamers| == |lane'.streamers| && lane' == lane.(streamers := lane.streamers[i := lane'.streamers[i]])
  }

  function StreamLeft(lane: Lane, s: Streamer): int {
    if s.over then 0 else 1 + if s.bus < |lane.epochs| then |lane.epochs[s.bus].bus| - s.pos else 0
  }

  lemma StreamerMovesOn(lane: Lane, i: nat, s': Streamer)
    requires i < |lane.streamers| && StreamerInv(lane, lane.streamers[i]) && !StreamerThrough(lane, i)
    requires s' == AfterStream(lane, lane.streamers[i])
    ensures 0 <= StreamLeft(lane, s') < StreamLeft(lane, lane.streamers[i])
  {
  }

  lemma ReachableStream(moves: seq<Move>, id: string, i: nat)
    requires i < |LaneAt(Run(moves), id).streamers|
    ensures StreamerInv(LaneAt(Run(moves), id), LaneAt(Run(moves), id).streamers[i])
  {
    AlwaysGood(moves, id);
  }

  lemma AdvanceStreamerHere(s: State, id: string, i: nat)
    requires i < |LaneAt(s, id).streamers|
    ensures var lane, s' := LaneAt(s, id), Next(s, id, AdvanceStreamer(i));
            LaneAt(s', id) == lane.(streamers := lane.streamers[i := AfterStream(lane, lane.streamers[i])])
  {
  }

  lemma {:induction false} StreamerGetsThere(moves: seq<Move>, id: string, i: nat) returns (n: nat)
    requires i < |LaneAt(Run(moves), id).streamers|
    ensures var lane := LaneAt(Run(moves), id);
            var lane' := LaneAt(Run(moves + Repeated(Move(id, AdvanceStreamer(i)), n)), id);
            OnlyStreamer(lane, lane', i) && StreamerThrough(lane', i)
    decreases StreamLeft(LaneAt(Run(moves), id), LaneAt(Run(moves), id).streamers[i])
  {
    var m, lane := Move(id, AdvanceStreamer(i)), LaneAt(Run(moves), id);
    if StreamerThrough(lane, i) {
      n := 0;
      RepeatedOn(moves, m, 0);
    } else {
      ReachableStream(moves, id, i);
      RunOn(moves, m);
      AdvanceStreamerHere(Run(moves), id, i);
      StreamerMovesOn(lane, i, LaneAt(Run(moves + [m]), id).streamers[i]);
      n := StreamerGetsThere(moves + [m], id, i);
      RepeatedOn(moves, m, n);
      n := n + 1;
    }
  }

  /** The same for a caller of SendStreamingMessage. */
  lemma StreamersGetThere(moves: seq<Move>, id: string, i: nat)
    requires i < |LaneAt(Run(moves), id).streamers|
    ensures exists n: nat ::
              var lane' := LaneAt(Run(moves + Repeated(Move(id, AdvanceStreamer(i)), n)), id);
              OnlyStreamer(LaneAt(Run(moves), id), lane', i) && StreamerThrough(lane', i)
  {
    var n := StreamerGetsThere(moves, id, i);
  }

  // ---- Turns and cancels ----

  /** What the writer can do next to come to its end, whatever else it could do. */
  function Finishing(lane: Lane, at: DateTime): LaneStep
    requires Writing(lane)
  {
    match lane.writer.phase
    case Receiving => EndOfEvents(at)
    case Received(_) => if NeedsLead(lane) then DrawLead else SkipLead
    case LeadTaken(_, _) => SendLead
    case Ready(_) => Draw
    case Taken(_, _) => Append
    case Appended(_, _) => PutStore
    case Stored(_, _) => Send
    case Ended => if Current(lane).isTurn then Unregister else Exit
    case Unregistered => Exit
  }

  function StepsLeft(w: Writer): nat {
    if w.NoWriter? then 0
    else
      (if w.last then 0 else 10) +
      match w.phase
      case Received(_) => 9
      case LeadTaken(_, _) => 8
      case Ready(_) => 7
      case Taken(_, _) => 6
      case Appended(_, _) => 5
      case Stored(_, _) => 4
      case Receiving => 3
      case Ended => 2
      case Unregistered => 1
  }

  /** A writer stands where its turn or cancel can. */
  predicate WriterFits(lane: Lane) {
    && Writing(lane) && NoTurnPhase(lane)
    && (!Current(lane).isTurn && lane.writer.last ==> !lane.writer.phase.Receiving?)
  }

  lemma WriterMovesOn(next: nat, lane: Lane, at: DateTime)
    requires WriterFits(lane)
    ensures Enabled(lane, Finishing(lane, at))
    ensures StepsLeft(AfterStep(next, lane, Finishing(lane, at)).writer) < StepsLeft(lane.writer)
    ensures |AfterStep(next, lane, Finishing(lane, at)).epochs| == |lane.epochs|
  {
    match lane.writer.phase
    case Receiving =>
    case Received(_) =>
    case LeadTaken(_, _) =>
    case Ready(_) =>
    case Taken(_, _) =>
    case Appended(_, _) =>
    case Stored(_, _) =>
    case Ended =>
    case Unregistered =>
  }

  lemma ReachableWriter(moves: seq<Move>, id: string)
    requires LaneAt(Run(moves), id).writer.Active?
    ensures WriterFits(LaneAt(Run(moves), id))
  {
    AlwaysGood(moves, id);
    FitsHere(Run(moves).next, LaneAt(Run(moves), id));
  }

  lemma FitsHere(next: nat, lane: Lane)
    requires LaneInv(next, lane) && CancelInv(lane) && lane.writer.Active?
    ensures WriterFits(lane)
  {
    CancelPhases(next, lane);
  }

  lemma StepHere(s: State, id: string, st: LaneStep)
    requires Enabled(LaneAt(s, id), st)
    ensures LaneAt(Next(s, id, st), id) == AfterStep(s.next, LaneAt(s, id), st)
  {
  }

  lemma {:induction false} WriterGetsThere(moves: seq<Move>, id: string, at: DateTime) returns (more: seq<Move>)
    ensures var lane, lane' := LaneAt(Run(moves), id), LaneAt(Run(moves + more), id);
            lane'.writer.NoWriter? && |lane'.epochs| == |lane.epochs|
    decreases StepsLeft(LaneAt(Run(moves), id).writer)
  {
    var lane := LaneAt(Run(moves), id);
    if lane.writer.NoWriter? {
      more := [];
      assert moves + [] == moves;
    } else {
      ReachableWriter(moves, id);
      WriterMovesOn(Run(moves).next, lane, at);
      var m := Move(id, Finishing(lane, at));
      RunOn(moves, m);
      StepHere(Run(moves), id, m.st);
      more := WriterGetsThere(moves + [m], id, at);
      assert moves + ([m] + more) == (moves + [m]) + more;
      more := [m] + more;
    }
  }

  /** From every reachable state a turn or cancel that is at work can come to its end. */
  lemma WritersGetThere(moves: seq<Move>, id: string)
    ensures exists more: seq<Move> ::
              var lane' := LaneAt(Run(moves + more), id);
              lane'.writer.NoWriter? && |lane'.epochs| == |LaneAt(Run(moves), id).epochs|
  {
    var more := WriterGetsThere(moves, id, DateTime(0, 0));
  }

  /** From every reachable state a task can come to rest, and a task that exists to a
      terminal state: what is at work comes to its end, and a cancel does the rest. */
  lemma EveryTaskCanEnd(moves: seq<Move>, id: string, f: Frame, at: DateTime)
    ensures exists more: seq<Move> ::
              var lane' := LaneAt(Run(more), id);
              && moves <= more && lane'.writer.NoWriter?
              && (lane'.store.Some? ==> lane'.store.value.status.state in {Completed, Failed, Canceled, Rejected})
  {
    var rest := WriterGetsThere(moves, id, at);
    var more := moves + rest;
    var lane := LaneAt(Run(more), id);
    if lane.store.Some? && !(lane.store.value.status.state in {Completed, Failed, Canceled, Rejected}) {
      CancelsRun(more, id, f, [], at);
      var longer: seq<Move> :| Continued(more, id, longer) && LaneAt(Run(longer), id).writer.NoWriter?
          && LaneAt(Run(longer), id).store == FoldEvents(lane.store, f, false, CancelEvents(lane.store, f, [], at));
      CancelLandsTerminal(lane.store, f, [], at);
    }
  }
}
