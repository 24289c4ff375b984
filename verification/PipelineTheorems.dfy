/** What holds in every reachable state of the event pipeline. */
module PipelineTheorems {
  import opened Types
  import opened Sequences
  import opened Artifacts
  import opened Turns
  import opened Events
  import opened Pipeline
  import opened PipelineInvariant
  import opened Subscribers
  import opened Waiters
  import opened Streamers
  import opened Attachments
  import opened Reachable

  // ---- The bounded log ----

  /** In every reachable state a task's log is the last 256 entries of everything ever
      logged for it, strictly increasing and below the counter; numbers of different
      tasks never meet, though taking a number and logging it are separate steps; and
      the log still holds everything after an event exactly when at most 256 came since. */
  lemma BoundedLog(moves: seq<Move>, id: string, other: string)
    requires id != other
    ensures var s := Run(moves);
            var hist, log := LaneAt(s, id).hist, LaneAt(s, id).log;
            && log == (if |hist| <= 256 then hist else hist[|hist| - 256..])
            && Increasing(hist)
            && (forall i | 0 <= i < |hist| :: hist[i].seqNo < s.next)
            && (forall i, j | 0 <= i < |hist| && 0 <= j < |LaneAt(s, other).hist| ::
                  hist[i].seqNo != LaneAt(s, other).hist[j].seqNo)
            && (forall i | 0 <= i < |hist| ::
                  Filter(log, PastId(Some(hist[i].seqNo))) == hist[i + 1..] <==> |hist| - (i + 1) <= 256)
  {
    var s := Run(moves);
    var hist := LaneAt(s, id).hist;
    HistoryFacts(moves, id);
    HistoryFacts(moves, other);
    forall i | 0 <= i < |hist|
      ensures Filter(Tail(hist), PastId(Some(hist[i].seqNo))) == hist[i + 1..]
         <==> |hist| - (i + 1) <= 256
    {
      LogHoldsAllSince(hist, i);
    }
  }

  lemma HistoryFacts(moves: seq<Move>, id: string)
    ensures var s := Run(moves);
            var lane := LaneAt(s, id);
            HistOk(s.next, lane.hist) && lane.log == Tail(lane.hist) && OwnedBy(s.drawn, id, lane.hist)
  {
    AlwaysGood(moves, id);
  }

  // ---- Layers: log, store, bus ----

  /** How many events of the lane have been sent. */
  function Sent(lane: Lane): int {
    |lane.hist| - Behind(lane)
  }

  /** The bus of a turn: nothing, the announced task alone, or the stream of what was sent. */
  ghost predicate CarriesStream(hist: seq<SeqEvent>, e: Epoch, to: int) {
    && 0 <= e.base <= to <= |hist|
    && if e.base == to then e.bus == [] || Payloads(e.bus) == [TaskObject(LeadOf(e))]
       else Payloads(e.bus) == TurnBus(LeadOf(e), Payloads(hist[e.base..to]))
  }

  lemma CarriedIsStream(hist: seq<SeqEvent>, e: Epoch)
    requires e.base + SentOn(e) <= |hist| && BusCarries(e, hist[e.base..e.base + SentOn(e)])
    ensures CarriesStream(hist, e, e.base + SentOn(e))
  {
    var span := hist[e.base..e.base + SentOn(e)];
    if Off(e) == 1 {
      assert e.bus == [e.bus[0]] + span;
      assert Payloads(e.bus) == [TaskObject(LeadOf(e))] + Payloads(span);
    } else {
      assert e.bus == span;
    }
  }

  /** At every moment of a turn the events on the bus are a prefix of those folded into
      the record, which are a prefix of those logged, with the log ahead of the bus by
      at most one; the record is exactly the fold of its prefix, the bus exactly the
      stream of its own; and within a turn only the last event can be a closing one. */
  lemma LayerOrder(moves: seq<Move>, id: string)
    ensures var lane := LaneAt(Run(moves), id);
            lane.epochs != [] && Current(lane).isTurn ==>
              var e := Current(lane);
              && e.base <= Sent(lane) <= Folded(lane) <= |lane.hist| <= Sent(lane) + 1
              && lane.store == FoldSpan(e, lane.hist[e.base..Folded(lane)])
              && CarriesStream(lane.hist, e, Sent(lane))
              && StopsOnlyLast(lane.hist[e.base..], ItemCloses)
  {
    AlwaysGood(moves, id);
    if LaneAt(Run(moves), id).epochs != [] && Current(LaneAt(Run(moves), id)).isTurn {
      LayersHere(Run(moves).next, LaneAt(Run(moves), id));
    }
  }

  lemma LayerBounds(next: nat, lane: Lane)
    requires lane.epochs != [] && CurrentOk(next, lane) && Current(lane).isTurn
    ensures Current(lane).base <= Sent(lane) <= Folded(lane) <= |lane.hist| <= Sent(lane) + 1
    ensures lane.store == FoldSpan(Current(lane), lane.hist[Current(lane).base..Folded(lane)])
  {
    var e := Current(lane);
    assert Span(lane.hist, e.base, BehindStore(lane.writer)) == lane.hist[e.base..Folded(lane)];
  }

  lemma CarriedTo(hist: seq<SeqEvent>, e: Epoch, to: nat)
    requires e.base <= to <= |hist| && BusCarries(e, hist[e.base..to])
    ensures CarriesStream(hist, e, to)
  {
    CarriesPrefix(hist, e, to);
    CarriedIsStream(hist, e);
  }

  lemma SentStream(next: nat, lane: Lane)
    requires lane.epochs != [] && CurrentOk(next, lane) && Current(lane).isTurn
    requires Current(lane).base <= Sent(lane) <= |lane.hist|
    ensures CarriesStream(lane.hist, Current(lane), Sent(lane))
  {
    TurnSent(next, lane);
    CarriedTo(lane.hist, Current(lane), Sent(lane));
  }

  lemma TurnStops(next: nat, lane: Lane)
    requires lane.epochs != [] && CurrentOk(next, lane) && Current(lane).isTurn
    ensures Current(lane).base <= |lane.hist| && StopsOnlyLast(lane.hist[Current(lane).base..], ItemCloses)
  {
    WholeStops(next, lane);
    assert Span(lane.hist, Current(lane).base, 0) == lane.hist[Current(lane).base..];
  }

  lemma LayersHere(next: nat, lane: Lane)
    requires lane.epochs != [] && CurrentOk(next, lane) && Current(lane).isTurn
    ensures var e := Current(lane);
            && e.base <= Sent(lane) <= Folded(lane) <= |lane.hist| <= Sent(lane) + 1
            && lane.store == FoldSpan(e, lane.hist[e.base..Folded(lane)])
            && CarriesStream(lane.hist, e, Sent(lane))
            && StopsOnlyLast(lane.hist[e.base..], ItemCloses)
  {
    LayerBounds(next, lane);
    SentStream(next, lane);
    TurnStops(next, lane);
  }

  /** A turn that is over sent everything it logged, and its successor started from
      exactly what it left behind. */
  lemma FinishedTurns(moves: seq<Move>, id: string, b: nat)
    requires b + 1 < |LaneAt(Run(moves), id).epochs| && LaneAt(Run(moves), id).epochs[b].isTurn
    ensures var lane := LaneAt(Run(moves), id);
            var e, succ := lane.epochs[b], lane.epochs[b + 1];
            && e.base <= succ.base <= |lane.hist|
            && CarriesStream(lane.hist, e, succ.base)
            && StopsOnlyLast(lane.hist[e.base..succ.base], ItemCloses)
            && succ.before == FoldSpan(e, lane.hist[e.base..succ.base])
            && !IsTerminalTask(e.before) && !e.open
  {
    ReachableChain(moves, id, b);
    var lane := LaneAt(Run(moves), id);
    ChainedStops(lane.hist, lane.epochs[b], lane.epochs[b + 1]);
    CarriedIsStream(lane.hist, lane.epochs[b]);
  }

  lemma ReachableChain(moves: seq<Move>, id: string, b: nat)
    requires b + 1 < |LaneAt(Run(moves), id).epochs|
    ensures var lane := LaneAt(Run(moves), id);
            Chained(lane.hist, lane.epochs[b], lane.epochs[b + 1])
  {
    AlwaysGood(moves, id);
    assert ChainedAt(LaneAt(Run(moves), id), b);
  }

  // ---- Blocking SendMessage ----

  lemma ReachableWaiter(moves: seq<Move>, id: string, i: nat)
    requires i < |LaneAt(Run(moves), id).waiters|
    ensures var s := Run(moves);
            LaneInv(s.next, LaneAt(s, id)) && WaitInv(LaneAt(s, id), LaneAt(s, id).waiters[i])
  {
    AlwaysGood(moves, id);
  }

  /** The caller read its turn's whole bus, and was answered with the fold of
      everything the turn sent, in exactly the status that woke it, its history cut to
      the length the client asked for and nothing else. */
  ghost predicate AnswersWholeTurn(lane: Lane, w: Waiter)
    requires w.phase.Answered? && w.phase.cause.ByStatus?
  {
    && w.bus < |lane.epochs|
    && var e := lane.epochs[w.bus];
    && w.pos == |e.bus| && e.base + SentOn(e) <= |lane.hist|
    && var t := FoldSpan(e, lane.hist[e.base..e.base + SentOn(e)]);
    && t.Some? && t.value.status == w.phase.cause.status
    && w.phase.answer == TaskAnswer(Trimmed(t.value, w.options.historyLength))
  }

  /** A SendMessage woken by a terminal status, or by INPUT_REQUIRED if the client did
      not already start the next turn, answers with the fold of its whole turn. */
  lemma BlockingAnswer(moves: seq<Move>, id: string, i: nat)
    requires i < |LaneAt(Run(moves), id).waiters|
    requires var w := LaneAt(Run(moves), id).waiters[i];
             && w.phase.Answered? && w.phase.cause.ByStatus? && IsClosing(w.phase.cause.status)
             && (w.phase.cause.status.state.IsTerminal() || !Overtaken(w))
    ensures AnswersWholeTurn(LaneAt(Run(moves), id), LaneAt(Run(moves), id).waiters[i])
  {
    ReachableWaiter(moves, id, i);
    AnsweredWhole(Run(moves).next, LaneAt(Run(moves), id), LaneAt(Run(moves), id).waiters[i]);
  }

  lemma AnsweredHere(next: nat, lane: Lane, w: Waiter)
    requires LaneInv(next, lane) && WaitInv(lane, w)
    requires w.phase.Answered? && w.phase.cause.ByStatus? && IsClosing(w.phase.cause.status)
    requires w.phase.cause.status.state.IsTerminal() || !Overtaken(w)
    ensures BusKnown(lane, w.bus) && w.pos == |lane.epochs[w.bus].bus|
    ensures var t := RecordAt(lane, lane.epochs[w.bus], w.pos);
            t.Some? && w.phase.answer == AnswerOf(t, w.options.historyLength) && t.value.status == w.phase.cause.status
  {
    BusIsKnown(next, lane, w.bus);
    ClosingIsLast(next, lane, w.bus, w.pos, w.phase.cause.status);
  }

  lemma AnsweredWhole(next: nat, lane: Lane, w: Waiter)
    requires LaneInv(next, lane) && WaitInv(lane, w)
    requires w.phase.Answered? && w.phase.cause.ByStatus? && IsClosing(w.phase.cause.status)
    requires w.phase.cause.status.state.IsTerminal() || !Overtaken(w)
    ensures AnswersWholeTurn(lane, w)
  {
    AnsweredHere(next, lane, w);
    RecordOfWhole(lane, w.bus);
  }

  lemma RecordOfWhole(lane: Lane, b: nat)
    requires BusKnown(lane, b)
    ensures RecordAt(lane, lane.epochs[b], |lane.epochs[b].bus|) == FoldSpan(lane.epochs[b], SentSpan(lane, b))
  {
  }

  /** The answer is the record after some events of the task: those that had been folded
      at the final read, at least all through the one that woke the caller; and if there
      were no later ones, it is exactly the record that event left, in its status. */
  ghost predicate AnswersSomeRecord(lane: Lane, w: Waiter)
    requires w.phase.Answered? && w.phase.cause.ByStatus?
  {
    && w.bus < w.turns <= |lane.epochs|
    && var e, reader := lane.epochs[w.bus], lane.epochs[w.turns - 1];
    && WokenAt(e, w.pos, w.phase.cause.status)
    && reader.base <= w.folded <= |lane.hist| && e.base < Idx(e, w.pos) <= w.folded
    && var found, woken := FoldSpan(reader, lane.hist[reader.base..w.folded]),
                           FoldSpan(e, lane.hist[e.base..Idx(e, w.pos)]);
    && found.Some? && w.phase.answer == TaskAnswer(Trimmed(found.value, w.options.historyLength))
    && woken.Some? && woken.value.status == w.phase.cause.status
    && (w.folded == Idx(e, w.pos) ==> found == woken)
  }

  /** Whatever status woke it - AUTH_REQUIRED, after which the turn goes on, or an
      INPUT_REQUIRED the client has already answered - a SendMessage answers with a
      record the task really had, no older than the event that woke it. */
  lemma StatusAnswer(moves: seq<Move>, id: string, i: nat)
    requires i < |LaneAt(Run(moves), id).waiters|
    requires var w := LaneAt(Run(moves), id).waiters[i];
             w.phase.Answered? && w.phase.cause.ByStatus?
    ensures AnswersSomeRecord(LaneAt(Run(moves), id), LaneAt(Run(moves), id).waiters[i])
  {
    ReachableWaiter(moves, id, i);
    StatusAnswerHere(Run(moves).next, LaneAt(Run(moves), id), LaneAt(Run(moves), id).waiters[i]);
  }

  lemma StatusAnswerHere(next: nat, lane: Lane, w: Waiter)
    requires LaneInv(next, lane) && WaitInv(lane, w) && w.phase.Answered? && w.phase.cause.ByStatus?
    ensures AnswersSomeRecord(lane, w)
  {
    BusIsKnown(next, lane, w.bus);
    RecordAtWaking(lane.hist, lane.epochs[w.bus], w.pos, w.phase.cause.status);
  }

  /** What was folded between the waking event and the final read of the same turn. */
  function FoldedSince(lane: Lane, w: Waiter): seq<StreamResponse>
    requires w.bus < |lane.epochs| && Idx(lane.epochs[w.bus], w.pos) <= w.folded <= |lane.hist|
  {
    Payloads(lane.hist[Idx(lane.epochs[w.bus], w.pos)..w.folded])
  }

  /** The answer is the waking record exactly if the events folded since carried no
      message, the last status among them, if any, was the waking one, and merging their
      artifact updates changes nothing. */
  ghost predicate AnswersWaking(lane: Lane, w: Waiter)
    requires w.phase.Answered? && w.phase.cause.ByStatus?
  {
    && AnswersSomeRecord(lane, w)
    && var e, evs := lane.epochs[w.bus], FoldedSince(lane, w);
    && var found, woken := FoldSpan(lane.epochs[w.turns - 1], lane.hist[lane.epochs[w.turns - 1].base..w.folded]),
                           FoldSpan(e, lane.hist[e.base..Idx(e, w.pos)]);
    && woken.Some?
    && (found == woken
        <==> && StatusMessages(evs) == [] && LastStatus(w.phase.cause.status, evs) == w.phase.cause.status
             && MergedInto(woken.value.artifacts, Updates(evs)) == woken.value.artifacts)
  }

  /** When a caller whose turn went on, as it does after AUTH_REQUIRED, is answered with
      the record that woke it. */
  lemma StatusAnswerExact(moves: seq<Move>, id: string, i: nat)
    requires i < |LaneAt(Run(moves), id).waiters|
    requires var w := LaneAt(Run(moves), id).waiters[i];
             w.phase.Answered? && w.phase.cause.ByStatus? && !Overtaken(w)
    ensures AnswersWaking(LaneAt(Run(moves), id), LaneAt(Run(moves), id).waiters[i])
  {
    StatusAnswer(moves, id, i);
    WakingHere(LaneAt(Run(moves), id), LaneAt(Run(moves), id).waiters[i]);
  }

  lemma WakingHere(lane: Lane, w: Waiter)
    requires w.phase.Answered? && w.phase.cause.ByStatus? && !Overtaken(w) && AnswersSomeRecord(lane, w)
    ensures AnswersWaking(lane, w)
  {
    SpanInTwo(lane.hist, lane.epochs[w.bus], Idx(lane.epochs[w.bus], w.pos), w.folded);
  }

  lemma SpanInTwo(hist: seq<SeqEvent>, e: Epoch, at: nat, to: nat)
    requires e.base < at <= to <= |hist| && FoldSpan(e, hist[e.base..at]).Some?
    ensures var t, evs := FoldSpan(e, hist[e.base..at]).value, Payloads(hist[at..to]);
            FoldSpan(e, hist[e.base..to]) == Some(t)
            <==> && StatusMessages(evs) == [] && LastStatus(t.status, evs) == t.status
                 && MergedInto(t.artifacts, Updates(evs)) == t.artifacts
  {
    var first, evs := Payloads(hist[e.base..at]), Payloads(hist[at..to]);
    assert Payloads(hist[e.base..to]) == first + evs;
    FoldInTwo(e.before, e.frame, e.isTurn, first, evs);
    UnchangedBy(FoldSpan(e, hist[e.base..at]).value, e.frame, evs);
  }

  ghost predicate AnswersOtherwise(lane: Lane, w: Waiter)
    requires w.phase.Answered? && !w.phase.cause.ByStatus?
  {
    && w.bus < |lane.epochs|
    && var e := lane.epochs[w.bus];
    match w.phase.cause
    case ByMessage =>
      && w.phase.answer.MessageAnswer?
      && 0 < w.pos <= |e.bus| && e.bus[w.pos - 1].evt == BareMessage(w.phase.answer.message)
    case AtOnce =>
      && !w.options.blocking && 0 < w.pos <= |e.bus| && (w.lossy || w.pos == 1)
      && w.phase.answer == TaskAnswer(Trimmed(AtOnceTask(e, w.pos), w.options.historyLength))
    case ByClose =>
      && !e.open && w.pos == |e.bus| && e.base + SentOn(e) <= |lane.hist|
      && ReadRecord(lane, w, w.phase.answer)
      && (var found := RecordTo(lane.hist, lane.epochs[w.turns - 1], w.folded);
          w.phase.answer
          == if found.None? then NoAnswer else TaskAnswer(Trimmed(found.value, w.options.historyLength)))
      && (!Overtaken(w) ==>
            w.phase.answer == AnswerOf(FoldSpan(e, lane.hist[e.base..e.base + SentOn(e)]), w.options.historyLength))
  }

  /** The task a caller that does not wait is answered with: as announced, or made of the
      one item it read if it had lagged. */
  function AtOnceTask(e: Epoch, pos: nat): Task
    requires 0 < pos <= |e.bus|
  {
    var f := e.frame;
    match e.bus[pos - 1].evt
    case StatusUpdate(u) => Task(f.taskId, Some(f.contextId), u.status, [], [], None)
    case ArtifactUpdate(u) =>
      Task(f.taskId, Some(f.contextId), TaskStatus(Working, None, Some(f.now)), [u.artifact], [], None)
    case _ => AnnouncedTask(e)
  }

  /** The record a turn begins with, or a Submitted task holding its message. */
  function AnnouncedTask(e: Epoch): Task {
    var f := e.frame;
    e.before.GetOr(Task(f.taskId, Some(f.contextId), TaskStatus(Submitted, None, Some(f.now)), [], [f.seed], None))
  }

  /** The other answers. A bare message is the one that was sent. A caller that does not
      block gets the task as it stood when the turn began, or, if it lagged before it
      read anything, a task made of the one item it then read. If the turn ends without
      waking the caller, the answer is the record the turn left - or a later one, if the
      client has started another turn by then - and none exactly when there is no record. */
  lemma OtherAnswers(moves: seq<Move>, id: string, i: nat)
    requires i < |LaneAt(Run(moves), id).waiters|
    requires var w := LaneAt(Run(moves), id).waiters[i];
             w.phase.Answered? && !w.phase.cause.ByStatus?
    ensures AnswersOtherwise(LaneAt(Run(moves), id), LaneAt(Run(moves), id).waiters[i])
  {
    ReachableWaiter(moves, id, i);
    OtherwiseHere(Run(moves).next, LaneAt(Run(moves), id), LaneAt(Run(moves), id).waiters[i]);
  }

  lemma OtherwiseHere(next: nat, lane: Lane, w: Waiter)
    requires LaneInv(next, lane) && WaitInv(lane, w) && w.phase.Answered? && !w.phase.cause.ByStatus?
    ensures AnswersOtherwise(lane, w)
  {
    BusIsKnown(next, lane, w.bus);
    match w.phase.cause
    case ByMessage =>
    case AtOnce => AtOnceHere(next, lane, w);
    case ByClose => ByCloseHere(lane, w);
  }

  lemma ByCloseHere(lane: Lane, w: Waiter)
    requires WaitInv(lane, w) && BusKnown(lane, w.bus) && w.phase.Answered? && w.phase.cause.ByClose?
    ensures AnswersOtherwise(lane, w)
  {
    RecordOfWhole(lane, w.bus);
  }

  lemma AtOnceHere(next: nat, lane: Lane, w: Waiter)
    requires HistOk(next, lane.hist) && WaitInv(lane, w) && BusKnown(lane, w.bus)
    requires w.phase.Answered? && w.phase.cause.AtOnce?
    ensures AnswersOtherwise(lane, w)
  {
    FirstItem(lane, w.bus);
    LeadIsAnnounced(lane.epochs[w.bus]);
    if lane.epochs[w.bus].bus[w.pos - 1].evt.TaskObject? {
      OnlyFirstIsTask(next, lane, w.bus, w.pos - 1);
    }
    if !w.lossy {
      FirstStops(lane.epochs[w.bus], w);
    }
    assert StopsInTime(lane.epochs[w.bus].bus, w);
  }

  lemma LeadIsAnnounced(e: Epoch)
    ensures LeadOf(e) == AnnouncedTask(e)
  {
  }

  lemma OnlyFirstIsTask(next: nat, lane: Lane, b: nat, pos: nat)
    requires HistOk(next, lane.hist) && BusKnown(lane, b)
    requires pos < |lane.epochs[b].bus| && lane.epochs[b].bus[pos].evt.TaskObject?
    ensures pos == 0
  {
    BusItem(lane.hist, lane.epochs[b], pos);
  }

  /** No caller waits longer than it asked to. It has been sent nothing that ends its wait
      but the last item it read. One that does not block and lost nothing is answered with
      the first item of its turn: the task as announced, or the bare message. */
  ghost predicate AnsweredInTime(lane: Lane, w: Waiter) {
    && w.bus < |lane.epochs|
    && var e := lane.epochs[w.bus];
    && StopsInTime(e.bus, w)
    && (!w.options.blocking && !w.lossy && w.pos > 0 ==>
          && w.pos == 1
          && match e.bus[0].evt
             case BareMessage(m) => w.phase == Answered(ByMessage, MessageAnswer(m))
             case TaskObject(_) =>
               w.phase == Answered(AtOnce, TaskAnswer(Trimmed(AnnouncedTask(e), w.options.historyLength)))
             case _ => false)
  }

  lemma AnswersInTime(moves: seq<Move>, id: string, i: nat)
    requires i < |LaneAt(Run(moves), id).waiters|
    ensures AnsweredInTime(LaneAt(Run(moves), id), LaneAt(Run(moves), id).waiters[i])
  {
    ReachableWaiter(moves, id, i);
    InTimeHere(Run(moves).next, LaneAt(Run(moves), id), LaneAt(Run(moves), id).waiters[i]);
  }

  lemma InTimeHere(next: nat, lane: Lane, w: Waiter)
    requires LaneInv(next, lane) && WaitInv(lane, w)
    ensures AnsweredInTime(lane, w)
  {
    BusIsKnown(next, lane, w.bus);
    if !w.options.blocking && !w.lossy && w.pos > 0 {
      FirstItem(lane, w.bus);
      LeadIsAnnounced(lane.epochs[w.bus]);
      FirstStops(lane.epochs[w.bus], w);
    }
  }

  lemma FirstStops(e: Epoch, w: Waiter)
    requires StopsInTime(e.bus, w) && !w.options.blocking && !w.lossy && w.pos > 0
    ensures w.pos == 1 && Stopped(w)
  {
    var passed := if Stopped(w) then w.pos - 1 else w.pos;
    assert passed > 0 ==> ReadsPast(w.options.blocking, e.bus[0].evt);
  }

  /** A bus starts with the announced task or with a bare message. */
  lemma FirstItem(lane: Lane, b: nat)
    requires BusKnown(lane, b)
    ensures var e := lane.epochs[b];
            e.bus != [] ==> e.bus[0].evt.BareMessage? || e.bus[0].evt == TaskObject(LeadOf(e))
  {
  }

  // ---- SendStreamingMessage ----

  /** A streaming caller was given items of its turn's stream, in order and none twice.
      If it lost none by lagging, they are a prefix of that stream, and once it is over
      they are the whole turn. */
  ghost predicate StreamsTurn(lane: Lane, s: Streamer) {
    && s.bus < |lane.epochs|
    && var e := lane.epochs[s.bus];
    && CarriesStream(lane.hist, e, e.base + SentOn(e))
    && Increasing(s.out) && (forall x | x in s.out :: x in e.bus)
    && (!s.lossy ==> s.out <= e.bus)
    && (!s.lossy && s.over ==> s.out == e.bus && e.base + SentOn(e) == TurnEnd(lane, s.bus))
  }

  lemma StreamingCaller(moves: seq<Move>, id: string, i: nat)
    requires i < |LaneAt(Run(moves), id).streamers|
    ensures StreamsTurn(LaneAt(Run(moves), id), LaneAt(Run(moves), id).streamers[i])
  {
    ReachableStreamer(moves, id, i);
    StreamsHere(Run(moves).next, LaneAt(Run(moves), id), LaneAt(Run(moves), id).streamers[i]);
  }

  lemma ReachableStreamer(moves: seq<Move>, id: string, i: nat)
    requires i < |LaneAt(Run(moves), id).streamers|
    ensures var s := Run(moves);
            LaneInv(s.next, LaneAt(s, id)) && StreamerInv(LaneAt(s, id), LaneAt(s, id).streamers[i])
  {
    AlwaysGood(moves, id);
  }

  lemma StreamsHere(next: nat, lane: Lane, s: Streamer)
    requires LaneInv(next, lane) && StreamerInv(lane, s)
    ensures StreamsTurn(lane, s)
  {
    BusStreams(next, lane, s.bus);
    GivenItems(lane.epochs[s.bus], s);
    if !s.lossy && s.over {
      OverIsWhole(next, lane, s);
    }
  }

  lemma GivenItems(e: Epoch, s: Streamer)
    requires PassedOn(e.bus, s.pos, s.out) && (!s.lossy ==> s.out == e.bus[..s.pos])
    ensures Increasing(s.out) && (forall x | x in s.out :: x in e.bus) && (!s.lossy ==> s.out <= e.bus)
  {
    forall x | x in s.out ensures x in e.bus {
      var k :| 0 <= k < |s.out| && s.out[k] == x;
      assert s.out[k] in e.bus[..s.pos];
    }
  }

  lemma BusStreams(next: nat, lane: Lane, b: nat)
    requires LaneInv(next, lane) && b < |lane.epochs| && lane.epochs[b].isTurn
    ensures CarriesStream(lane.hist, lane.epochs[b], lane.epochs[b].base + SentOn(lane.epochs[b]))
  {
    BusIsKnown(next, lane, b);
    CarriedIsStream(lane.hist, lane.epochs[b]);
  }

  /** A caller that is over without having lost anything read its whole bus. */
  lemma OverIsWhole(next: nat, lane: Lane, s: Streamer)
    requires LaneInv(next, lane) && StreamerInv(lane, s) && !s.lossy && s.over
    ensures var e := lane.epochs[s.bus];
            s.out == e.bus && e.base + SentOn(e) == TurnEnd(lane, s.bus)
  {
    var e := lane.epochs[s.bus];
    if s.pos < |e.bus| || e.open {
      ReadToClosing(next, lane, s);
      ClosingEndsTurn(next, lane, s.bus);
    } else {
      ClosedEndsTurn(next, lane, s.bus);
    }
  }

  lemma ReadToClosing(next: nat, lane: Lane, s: Streamer)
    requires LaneInv(next, lane) && StreamerInv(lane, s) && !s.lossy && s.over
    requires s.pos < |lane.epochs[s.bus].bus| || lane.epochs[s.bus].open
    ensures s.out == lane.epochs[s.bus].bus && EndsClosing(lane.hist, lane.epochs[s.bus])
  {
    LastRead(lane.epochs[s.bus], s);
    ClosingRead(next, lane, s.bus, s.pos);
  }

  lemma ClosingRead(next: nat, lane: Lane, b: nat, pos: nat)
    requires LaneInv(next, lane) && b < |lane.epochs| && lane.epochs[b].isTurn
    requires 0 < pos <= |lane.epochs[b].bus| && ItemCloses(lane.epochs[b].bus[pos - 1])
    ensures pos == |lane.epochs[b].bus| && EndsClosing(lane.hist, lane.epochs[b])
  {
    KnownAndStops(next, lane, b);
    ClosingEndsBus(lane.hist, lane.epochs[b], pos);
  }

  lemma LastRead(e: Epoch, s: Streamer)
    requires s.pos <= |e.bus| && s.out == e.bus[..s.pos] && s.out != [] && ItemCloses(s.out[|s.out| - 1])
    ensures 0 < s.pos && ItemCloses(e.bus[s.pos - 1])
  {
  }

  /** The last event a turn has sent is a closing one. */
  predicate EndsClosing(hist: seq<SeqEvent>, e: Epoch) {
    && 0 < SentOn(e) && 0 <= e.base + SentOn(e) <= |hist|
    && ItemCloses(hist[e.base + SentOn(e) - 1])
  }

  lemma ClosingEndsBus(hist: seq<SeqEvent>, e: Epoch, pos: nat)
    requires e.base + SentOn(e) <= |hist| && BusCarries(e, hist[e.base..e.base + SentOn(e)])
    requires StopsOnlyLast(hist[e.base..e.base + SentOn(e)], ItemCloses)
    requires 0 < pos <= |e.bus| && ItemCloses(e.bus[pos - 1])
    ensures pos == |e.bus| && EndsClosing(hist, e)
  {
    var span := hist[e.base..e.base + SentOn(e)];
    assert span[pos - 1 - Off(e)] == e.bus[pos - 1];
    assert span[|span| - 1] == hist[e.base + SentOn(e) - 1];
  }

  /** Nothing is logged after a closing event of a turn. */
  lemma ClosingEndsTurn(next: nat, lane: Lane, b: nat)
    requires LaneInv(next, lane) && b < |lane.epochs| && lane.epochs[b].isTurn && EndsClosing(lane.hist, lane.epochs[b])
    ensures lane.epochs[b].base + SentOn(lane.epochs[b]) == TurnEnd(lane, b)
  {
    if b < |lane.epochs| - 1 {
      EndedTurnSent(lane, b);
    } else {
      WholeStops(next, lane);
      StopsAtSent(lane.hist, lane.epochs[b].base, SentOn(lane.epochs[b]));
    }
  }

  lemma StopsAtSent(hist: seq<SeqEvent>, base: nat, sent: nat)
    requires 0 < sent && base + sent <= |hist| && StopsOnlyLast(Span(hist, base, 0), ItemCloses)
    requires ItemCloses(hist[base + sent - 1])
    ensures base + sent == |hist|
  {
    assert Span(hist, base, 0)[sent - 1] == hist[base + sent - 1];
  }

  lemma ClosedEndsTurn(next: nat, lane: Lane, b: nat)
    requires LaneInv(next, lane) && b < |lane.epochs| && lane.epochs[b].isTurn && !lane.epochs[b].open
    ensures lane.epochs[b].base + SentOn(lane.epochs[b]) == TurnEnd(lane, b)
  {
    if b < |lane.epochs| - 1 {
      EndedTurnSent(lane, b);
    } else {
      CurrentFacts(next, lane);
      assert CurrentOk(next, lane);
    }
  }

  lemma EndedTurnSent(lane: Lane, b: nat)
    requires AllChained(lane) && b + 1 < |lane.epochs| && lane.epochs[b].isTurn
    ensures lane.epochs[b].base + SentOn(lane.epochs[b]) == TurnEnd(lane, b)
  {
    assert ChainedAt(lane, b);
    ChainedFacts(lane.hist, lane.epochs[b], lane.epochs[b + 1]);
  }

  // ---- Terminal states are absorbing ----

  /** The record is terminal and no cancel is at work on it. */
  predicate SettledTerminal(lane: Lane) {
    && IsTerminalTask(lane.store)
    && (lane.writer.Active? && lane.epochs != [] ==> Current(lane).isTurn)
  }

  lemma OpenBeforeLast(e: Epoch, hist: seq<SeqEvent>)
    requires !IsTerminalTask(e.before) && e.base < |hist| && StopsOnlyLast(Span(hist, e.base, 0), ItemCloses)
    ensures !IsTerminalTask(FoldSpan(e, Span(hist, e.base, 1)))
  {
    var folded := Payloads(Span(hist, e.base, 1));
    forall i | 0 <= i < |folded| ensures !Closes(folded[i]) {
      assert folded[i] == Span(hist, e.base, 0)[i].evt;
    }
    StaysOpen(e.before, e.frame, e.isTurn, folded);
  }

  /** A turn whose record is terminal has nothing left to fold. */
  lemma NothingToFold(next: nat, lane: Lane)
    requires LaneInv(next, lane) && SettledTerminal(lane) && Writing(lane)
    ensures !lane.writer.phase.Appended?
  {
    assert CurrentOk(next, lane);
    if lane.writer.phase.Appended? {
      OpenBeforeLast(Current(lane), lane.hist);
    }
  }

  lemma NothingToFoldIn(moves: seq<Move>, id: string)
    requires SettledTerminal(LaneAt(Run(moves), id))
    ensures var lane := LaneAt(Run(moves), id);
            Writing(lane) ==> !lane.writer.phase.Appended?
  {
    AlwaysGood(moves, id);
    if Writing(LaneAt(Run(moves), id)) {
      NothingToFold(Run(moves).next, LaneAt(Run(moves), id));
    }
  }

  lemma TerminalStep(next: nat, lane: Lane, st: LaneStep, lane': Lane)
    requires SettledTerminal(lane) && Enabled(lane, st) && lane' == AfterStep(next, lane, st)
    requires Writing(lane) ==> !lane.writer.phase.Appended?
    ensures SettledTerminal(lane') && lane'.store == lane.store
  {
  }

  /** Once a task's record is terminal, no interleaving of further steps - of its own
      turns, of other tasks, of subscribers - changes it again. */
  lemma {:induction false} TerminalIsAbsorbing(moves: seq<Move>, more: seq<Move>, id: string)
    requires SettledTerminal(LaneAt(Run(moves), id))
    ensures SettledTerminal(LaneAt(Run(moves + more), id))
    ensures LaneAt(Run(moves + more), id).store == LaneAt(Run(moves), id).store
  {
    if more == [] {
      assert moves + more == moves;
    } else {
      var n := |more| - 1;
      TerminalIsAbsorbing(moves, more[..n], id);
      assert (moves + more)[..|moves| + n] == moves + more[..n];
      OneMoreStep(moves + more[..n], more[n], id);
      assert moves + more == moves + more[..n] + [more[n]];
    }
  }

  lemma OneMoreStep(moves: seq<Move>, m: Move, id: string)
    requires SettledTerminal(LaneAt(Run(moves), id))
    ensures SettledTerminal(LaneAt(Run(moves + [m]), id))
    ensures LaneAt(Run(moves + [m]), id).store == LaneAt(Run(moves), id).store
  {
    assert (moves + [m])[..|moves|] == moves;
    var s := Run(moves);
    if m.id == id && Enabled(LaneAt(s, id), m.st) {
      NothingToFoldIn(moves, id);
      TerminalStep(s.next, LaneAt(s, id), m.st, LaneAt(Next(s, id, m.st), id));
    }
  }

  /** A cancel that has finished has left the task terminal. */
  lemma FinishedCancel(moves: seq<Move>, id: string)
    ensures var lane := LaneAt(Run(moves), id);
            lane.epochs != [] && !Current(lane).isTurn && lane.writer.NoWriter? ==> SettledTerminal(lane)
  {
    AlwaysGood(moves, id);
  }
}
