/** Callers of SendMessage: what they are answered, whatever the interleaving. */
module Waiters {
  import opened Types
  import opened Sequences
  import opened Turns
  import opened Events
  import opened Pipeline
  import opened PipelineInvariant
  import opened Subscribers

  predicate IsClosing(status: TaskStatus) {
    status.state.IsTerminal() || status.state == InputRequired
  }

  /** The item that woke the caller: the last one it read. */
  predicate WokenAt(e: Epoch, pos: nat, status: TaskStatus) {
    && 0 < pos <= |e.bus|
    && e.bus[pos - 1].evt.StatusUpdate?
    && e.bus[pos - 1].evt.statusUpdate.status == status
    && status.state.IsFinalForBlockingSend()
  }

  /** The record as a turn or cancel leaves it after the task's first `to` events. */
  function RecordTo(hist: seq<SeqEvent>, e: Epoch, to: nat): Option<Task> {
    if e.base <= to <= |hist| then FoldSpan(e, hist[e.base..to]) else None
  }

  /** The record left by what a reader at `pos` has read of the turn. */
  function RecordAt(lane: Lane, e: Epoch, pos: nat): Option<Task> {
    RecordTo(lane.hist, e, Idx(e, pos))
  }

  /** A later turn or cancel had begun by the final read. */
  predicate Overtaken(w: Waiter) {
    w.bus + 1 < w.turns
  }

  /** The final read found the record after some events of the task, at least all those
      the caller had been sent; if no further ones, then the record those left. */
  ghost predicate ReadRecord(lane: Lane, w: Waiter, answer: Answer)
    requires w.bus < |lane.epochs|
  {
    && w.bus < w.turns <= |lane.epochs|
    && var e, reader := lane.epochs[w.bus], lane.epochs[w.turns - 1];
    && reader.base <= w.folded <= |lane.hist| && Idx(e, w.pos) <= w.folded
    && answer == AnswerOf(RecordTo(lane.hist, reader, w.folded), w.options.historyLength)
    && (w.folded == Idx(e, w.pos) ==> RecordTo(lane.hist, reader, w.folded) == RecordAt(lane, e, w.pos))
  }

  ghost predicate AnsweredOk(lane: Lane, w: Waiter)
    requires w.bus < |lane.epochs| && w.phase.Answered?
  {
    var e := lane.epochs[w.bus];
    match w.phase.cause
    case ByStatus(status) =>
      && WokenAt(e, w.pos, status)
      && ReadRecord(lane, w, w.phase.answer) && w.phase.answer.TaskAnswer?
      && (status.state.IsTerminal() ==> !Overtaken(w))
      && (IsClosing(status) && !Overtaken(w) ==>
            var t := RecordAt(lane, e, w.pos);
            w.phase.answer == AnswerOf(t, w.options.historyLength) && t.Some? && t.value.status == status)
    case ByMessage =>
      && w.phase.answer.MessageAnswer?
      && 0 < w.pos <= |e.bus| && e.bus[w.pos - 1].evt == BareMessage(w.phase.answer.message)
    case ByClose =>
      && !e.open && w.pos == |e.bus| && ReadRecord(lane, w, w.phase.answer)
      && (!Overtaken(w) ==> w.phase.answer == AnswerOf(RecordAt(lane, e, w.pos), w.options.historyLength))
    case AtOnce =>
      && !w.options.blocking && 0 < w.pos <= |e.bus| && !e.bus[w.pos - 1].evt.BareMessage?
      && w.phase.answer == AtOnceAnswer(e.frame, e.bus[w.pos - 1].evt, w.options.historyLength)
  }

  /** An item a caller is not answered for: it was asked to wait, and this is neither a bare
      message nor a status in one of the six states it waits for. */
  predicate ReadsPast(blocking: bool, evt: StreamResponse) {
    && blocking && !evt.BareMessage?
    && (evt.StatusUpdate? ==>
          !(evt.statusUpdate.status.state in {Completed, Failed, Canceled, Rejected, InputRequired, AuthRequired}))
  }

  /** An item it read made it stop waiting. */
  predicate Stopped(w: Waiter) {
    w.phase.Woken? || (w.phase.Answered? && !w.phase.cause.ByClose?)
  }

  /** The item it stopped for is the last it read and not one to read past; all before it
      are, as far as no receive skipped any. */
  ghost predicate StopsInTime(bus: seq<SeqEvent>, w: Waiter) {
    var passed := if Stopped(w) then w.pos - 1 else w.pos;
    && w.pos <= |bus|
    && (Stopped(w) ==> 0 < w.pos && !ReadsPast(w.options.blocking, bus[w.pos - 1].evt))
    && (!w.lossy ==> forall k | 0 <= k < passed :: ReadsPast(w.options.blocking, bus[k].evt))
  }

  ghost predicate WaitInv(lane: Lane, w: Waiter) {
    && w.bus < |lane.epochs|
    && var e := lane.epochs[w.bus];
    && e.isTurn && w.pos <= |e.bus| && Idx(e, w.pos) <= |lane.hist| && StopsInTime(e.bus, w)
    && match w.phase
       case Waiting => true
       case Woken(status) => WokenAt(e, w.pos, status)
       case BusClosed => !e.open && w.pos == |e.bus|
       case Answered(_, _) => AnsweredOk(lane, w)
  }

  lemma RecordToKept(hist: seq<SeqEvent>, hist': seq<SeqEvent>, e: Epoch, e': Epoch, to: nat)
    requires hist <= hist' && EpochGrows(e, e') && to <= |hist|
    ensures RecordTo(hist', e', to) == RecordTo(hist, e, to)
  {
    if e.base <= to {
      assert hist'[e.base..to] == hist[e.base..to];
    }
  }

  lemma RecordKept(lane: Lane, lane': Lane, b: nat, pos: nat)
    requires Grows(lane, lane') && b < |lane.epochs| && pos <= |lane.epochs[b].bus|
    requires Idx(lane.epochs[b], pos) <= |lane.hist|
    ensures RecordAt(lane', lane'.epochs[b], pos) == RecordAt(lane, lane.epochs[b], pos)
    ensures Idx(lane'.epochs[b], pos) == Idx(lane.epochs[b], pos)
  {
    var e, e' := lane.epochs[b], lane'.epochs[b];
    assert EpochGrows(e, e');
    IdxKept(e, e', pos);
    RecordToKept(lane.hist, lane'.hist, e, e', Idx(e, pos));
  }

  lemma ReadRecordKept(lane: Lane, lane': Lane, w: Waiter, answer: Answer)
    requires Grows(lane, lane') && w.bus < |lane.epochs| && w.pos <= |lane.epochs[w.bus].bus|
    requires ReadRecord(lane, w, answer)
    ensures ReadRecord(lane', w, answer)
  {
    RecordKept(lane, lane', w.bus, w.pos);
    assert EpochGrows(lane.epochs[w.turns - 1], lane'.epochs[w.turns - 1]);
    RecordToKept(lane.hist, lane'.hist, lane.epochs[w.turns - 1], lane'.epochs[w.turns - 1], w.folded);
  }

  /** Other steps do not disturb a waiting caller, nor an answer already given. */
  lemma WaitKept(next: nat, lane: Lane, st: LaneStep, w: Waiter)
    requires LaneInv(next, lane) && Enabled(lane, st) && WaitInv(lane, w)
    ensures WaitInv(AfterStep(next, lane, st), w)
  {
    StepGrows(next, lane, st);
    WaitGrows(lane, AfterStep(next, lane, st), w);
  }

  lemma WaitGrows(lane: Lane, lane': Lane, w: Waiter)
    requires Grows(lane, lane') && WaitInv(lane, w)
    ensures WaitInv(lane', w)
  {
    RecordKept(lane, lane', w.bus, w.pos);
    assert EpochGrows(lane.epochs[w.bus], lane'.epochs[w.bus]);
    if w.phase.Answered? && (w.phase.cause.ByStatus? || w.phase.cause.ByClose?) {
      ReadRecordKept(lane, lane', w, w.phase.answer);
    }
  }

  /** On a bus that stops at its first closing event, a closing status is the last
      item, and it is what the record then says. */
  lemma WokenSpan(e: Epoch, span: seq<SeqEvent>, pos: nat, status: TaskStatus)
    requires BusCarries(e, span) && StopsOnlyLast(span, ItemCloses) && WokenAt(e, pos, status) && IsClosing(status)
    ensures pos == |e.bus| && span != [] && ItemCloses(span[|span| - 1])
    ensures FoldSpan(e, span).Some? && FoldSpan(e, span).value.status == status
  {
    var i := pos - 1 - Off(e);
    assert span[i] == e.bus[pos - 1] && ItemCloses(span[i]);
    assert Payloads(span)[i] == span[i].evt;
    LastStatusWins(e.before, e.frame, e.isTurn, Payloads(span));
  }

  function SentSpan(lane: Lane, b: nat): seq<SeqEvent>
    requires b < |lane.epochs| && lane.epochs[b].base + SentOn(lane.epochs[b]) <= |lane.hist|
  {
    var e := lane.epochs[b];
    lane.hist[e.base..e.base + SentOn(e)]
  }

  lemma WokenRecord(lane: Lane, b: nat, pos: nat, status: TaskStatus)
    requires BusKnown(lane, b) && StopsOnlyLast(SentSpan(lane, b), ItemCloses)
    requires WokenAt(lane.epochs[b], pos, status) && IsClosing(status)
    ensures var e, span := lane.epochs[b], SentSpan(lane, b);
            && pos == |e.bus| && span != [] && ItemCloses(span[|span| - 1])
            && RecordAt(lane, e, pos) == FoldSpan(e, span)
            && FoldSpan(e, span).Some? && FoldSpan(e, span).value.status == status
  {
    WokenSpan(lane.epochs[b], SentSpan(lane, b), pos, status);
  }

  ghost predicate SendsToClose(hist: seq<SeqEvent>, e: Epoch) {
    && e.base + SentOn(e) <= |hist|
    && StopsOnlyLast(hist[e.base..e.base + SentOn(e)], ItemCloses)
  }

  lemma CurrentStops(next: nat, lane: Lane)
    requires lane.epochs != [] && CurrentOk(next, lane) && Current(lane).isTurn
    ensures SendsToClose(lane.hist, Current(lane))
  {
    CurrentFacts(next, lane);
    WholeStops(next, lane);
    StretchStops(lane.hist, Current(lane).base, Current(lane).base + SentOn(Current(lane)));
  }

  lemma WholeStops(next: nat, lane: Lane)
    requires lane.epochs != [] && CurrentOk(next, lane) && Current(lane).isTurn
    ensures Current(lane).base <= |lane.hist|
    ensures StopsOnlyLast(Span(lane.hist, Current(lane).base, 0), ItemCloses)
  {
  }

  lemma StretchStops(hist: seq<SeqEvent>, base: nat, to: nat)
    requires base <= to <= |hist| && StopsOnlyLast(Span(hist, base, 0), ItemCloses)
    ensures StopsOnlyLast(hist[base..to], ItemCloses)
  {
    assert forall i | 0 <= i < to - base :: hist[base..to][i] == Span(hist, base, 0)[i];
  }

  lemma ChainedStops(hist: seq<SeqEvent>, e: Epoch, succ: Epoch)
    requires Chained(hist, e, succ) && e.isTurn
    ensures e.base + SentOn(e) == succ.base && SendsToClose(hist, e)
  {
    CarriesPrefix(hist, e, succ.base);
  }

  /** What a turn sent stops at its first closing event. */
  lemma SentStops(next: nat, lane: Lane, b: nat)
    requires LaneInv(next, lane) && b < |lane.epochs| && lane.epochs[b].isTurn
    ensures SendsToClose(lane.hist, lane.epochs[b])
  {
    if b < |lane.epochs| - 1 {
      assert ChainedAt(lane, b);
      ChainedStops(lane.hist, lane.epochs[b], lane.epochs[b + 1]);
    } else {
      CurrentStops(next, lane);
    }
  }

  /** Once a closing event has been sent, the record is the fold of what was sent. */
  lemma StoreAfterClosing(next: nat, lane: Lane, span: seq<SeqEvent>)
    requires lane.epochs != [] && CurrentOk(next, lane) && Current(lane).isTurn
    requires var e := Current(lane);
             && e.base + SentOn(e) <= |lane.hist| && span == lane.hist[e.base..e.base + SentOn(e)]
             && span != [] && ItemCloses(span[|span| - 1])
    ensures lane.store == FoldSpan(Current(lane), span)
  {
    var e, w, hist := Current(lane), lane.writer, lane.hist;
    var behind := if w.Active? then BehindBus(w.phase) else 0;
    CarriesPrefix(hist, e, if e.base + behind <= |hist| then |hist| - behind else e.base) by {
      assert BusCarries(e, Span(hist, e.base, behind));
    }
    assert span == Span(hist, e.base, behind);
    assert behind == 0;
  }

  lemma KnownAndStops(next: nat, lane: Lane, b: nat)
    requires LaneInv(next, lane) && b < |lane.epochs| && lane.epochs[b].isTurn
    ensures BusKnown(lane, b) && StopsOnlyLast(SentSpan(lane, b), ItemCloses)
  {
    BusIsKnown(next, lane, b);
    SentStops(next, lane, b);
  }

  lemma OpenAtStart(next: nat, lane: Lane, b: nat)
    requires LaneInv(next, lane) && b < |lane.epochs|
    ensures !IsTerminalTask(lane.epochs[b].before)
  {
    if b < |lane.epochs| - 1 {
      assert ChainedAt(lane, b);
    }
  }

  lemma SuccessorStarts(lane: Lane, b: nat)
    requires b + 1 < |lane.epochs| && ChainedAt(lane, b) && BusKnown(lane, b)
    ensures lane.epochs[b + 1].before == FoldSpan(lane.epochs[b], SentSpan(lane, b))
  {
    ChainedFacts(lane.hist, lane.epochs[b], lane.epochs[b + 1]);
  }

  lemma SuccessorOpen(next: nat, lane: Lane, b: nat)
    requires LaneInv(next, lane) && b < |lane.epochs| - 1 && BusKnown(lane, b)
    ensures !IsTerminalTask(FoldSpan(lane.epochs[b], SentSpan(lane, b)))
  {
    OpenAtStart(next, lane, b + 1);
    assert ChainedAt(lane, b);
    SuccessorStarts(lane, b);
  }

  lemma LastAfterClosing(next: nat, lane: Lane, b: nat)
    requires b == |lane.epochs| - 1 && CurrentOk(next, lane) && BusKnown(lane, b)
    requires SentSpan(lane, b) != [] && ItemCloses(SentSpan(lane, b)[|SentSpan(lane, b)| - 1])
    ensures lane.store == FoldSpan(lane.epochs[b], SentSpan(lane, b))
  {
    StoreAfterClosing(next, lane, SentSpan(lane, b));
  }

  /** After a closing event the record stays as the turn left it, unless another turn or
      cancel follows; none follows a terminal one. */
  lemma AfterClosing(next: nat, lane: Lane, b: nat)
    requires LaneInv(next, lane) && BusKnown(lane, b)
    requires SentSpan(lane, b) != [] && ItemCloses(SentSpan(lane, b)[|SentSpan(lane, b)| - 1])
    ensures var t := FoldSpan(lane.epochs[b], SentSpan(lane, b));
            && (b == |lane.epochs| - 1 ==> lane.store == t)
            && (IsTerminalTask(t) ==> b == |lane.epochs| - 1)
  {
    if b == |lane.epochs| - 1 {
      LastAfterClosing(next, lane, b);
    } else {
      SuccessorOpen(next, lane, b);
    }
  }

  /** A closing status ends its turn: nothing follows it on the bus, the record is the
      fold of exactly what was sent, and only an interrupted task can be taken further. */
  lemma ClosingIsLast(next: nat, lane: Lane, b: nat, pos: nat, status: TaskStatus)
    requires LaneInv(next, lane) && b < |lane.epochs| && lane.epochs[b].isTurn
    requires WokenAt(lane.epochs[b], pos, status) && IsClosing(status)
    ensures pos == |lane.epochs[b].bus|
    ensures var t := RecordAt(lane, lane.epochs[b], pos);
            && t.Some? && t.value.status == status
            && (b == |lane.epochs| - 1 ==> lane.store == t)
            && (status.state.IsTerminal() ==> b == |lane.epochs| - 1)
  {
    KnownAndStops(next, lane, b);
    WokenRecord(lane, b, pos, status);
    AfterClosing(next, lane, b);
  }

  /** A closed bus belongs to a finished turn whose events it carried in full. */
  lemma ClosedIsWhole(next: nat, lane: Lane, b: nat)
    requires LaneInv(next, lane) && b == |lane.epochs| - 1 && lane.epochs[b].isTurn && !lane.epochs[b].open
    ensures lane.store == RecordAt(lane, lane.epochs[b], |lane.epochs[b].bus|)
  {
    var e := lane.epochs[b];
    BusFacts(next, lane, b);
    assert Span(lane.hist, e.base, 0) == lane.hist[e.base..];
    assert Idx(e, |e.bus|) == e.base + SentOn(e) == |lane.hist|;
  }

  // ---- What a final read finds ----

  lemma RecordGrows(hist: seq<SeqEvent>, e: Epoch, to: nat)
    requires e.base <= to < |hist|
    ensures RecordTo(hist, e, to + 1)
         == Applied(RecordTo(hist, e, to), e.frame, e.isTurn && to == e.base, hist[to].evt)
  {
    assert hist[e.base..to + 1] == hist[e.base..to] + [hist[to]];
    FoldSpanSnoc(e, hist[e.base..to], hist[to]);
  }

  lemma {:induction false} RecordStays(hist: seq<SeqEvent>, e: Epoch, at: nat, to: nat)
    requires e.base <= at <= to <= |hist| && RecordTo(hist, e, at).Some?
    ensures RecordTo(hist, e, to).Some?
  {
    if at < to {
      RecordStays(hist, e, at, to - 1);
      RecordGrows(hist, e, to - 1);
    }
  }

  lemma RecordFromStart(hist: seq<SeqEvent>, e: Epoch)
    requires e.base <= |hist|
    ensures RecordTo(hist, e, e.base) == e.before
  {
    assert Payloads(hist[e.base..e.base]) == [];
  }

  /** The record after the event that woke the caller is in the status that woke it. */
  lemma RecordAtWaking(hist: seq<SeqEvent>, e: Epoch, pos: nat, status: TaskStatus)
    requires e.base + SentOn(e) <= |hist| && BusCarries(e, hist[e.base..e.base + SentOn(e)])
    requires forall i | 0 <= i < |hist| :: !hist[i].evt.TaskObject?
    requires WokenAt(e, pos, status)
    ensures e.base < Idx(e, pos) <= |hist|
    ensures var t := RecordTo(hist, e, Idx(e, pos));
            t.Some? && t.value.status == status
  {
    BusItem(hist, e, pos - 1);
    StatusRecorded(hist, e, Idx(e, pos) - 1);
  }

  lemma StatusRecorded(hist: seq<SeqEvent>, e: Epoch, at: nat)
    requires e.base <= at < |hist| && hist[at].evt.StatusUpdate?
    ensures var t := RecordTo(hist, e, at + 1);
            t.Some? && t.value.status == hist[at].evt.statusUpdate.status
  {
    RecordGrows(hist, e, at);
  }

  /** How an epoch stands to a record read off an earlier bus: it starts with at least
      those events, from that very record if there are no others. */
  ghost predicate Continues(hist: seq<SeqEvent>, e: Epoch, at: nat, record: Option<Task>) {
    && at <= e.base <= |hist|
    && (record.Some? ==> e.before.Some?)
    && (e.base == at ==> e.before == record)
  }

  lemma ChainContinues(hist: seq<SeqEvent>, e: Epoch, succ: Epoch, at: nat)
    requires Chained(hist, e, succ) && e.base <= at <= succ.base
    ensures Continues(hist, succ, at, RecordTo(hist, e, at))
  {
    if RecordTo(hist, e, at).Some? {
      RecordStays(hist, e, at, succ.base);
    }
  }

  lemma ContinuesOn(hist: seq<SeqEvent>, e: Epoch, succ: Epoch, at: nat, record: Option<Task>)
    requires Chained(hist, e, succ) && Continues(hist, e, at, record)
    ensures Continues(hist, succ, at, record)
  {
    RecordFromStart(hist, e);
    ChainContinues(hist, e, succ, e.base);
  }

  lemma {:induction false} LaterContinues(lane: Lane, b: nat, pos: nat, k: nat)
    requires AllChained(lane) && BusKnown(lane, b) && b < k < |lane.epochs| && pos <= |lane.epochs[b].bus|
    ensures Continues(lane.hist, lane.epochs[k], Idx(lane.epochs[b], pos), RecordAt(lane, lane.epochs[b], pos))
  {
    assert ChainedAt(lane, k - 1);
    if k == b + 1 {
      var e := lane.epochs[b];
      ChainedFacts(lane.hist, e, lane.epochs[k]);
      IdxMonotone(e, pos, |e.bus|);
      ChainContinues(lane.hist, e, lane.epochs[k], Idx(e, pos));
    } else {
      LaterContinues(lane, b, pos, k - 1);
      ContinuesOn(lane.hist, lane.epochs[k - 1], lane.epochs[k], Idx(lane.epochs[b], pos),
                  RecordAt(lane, lane.epochs[b], pos));
    }
  }

  /** The stored record is what the current turn or cancel makes of the folded events. */
  lemma StoreIsRecord(next: nat, lane: Lane)
    requires lane.epochs != [] && CurrentOk(next, lane)
    ensures Current(lane).base <= Folded(lane) <= |lane.hist|
    ensures lane.store == RecordTo(lane.hist, Current(lane), Folded(lane))
  {
    if lane.writer.Active? {
      BehindIsInside(next, lane);
    }
    assert Span(lane.hist, Current(lane).base, BehindStore(lane.writer)) == lane.hist[Current(lane).base..Folded(lane)];
  }

  lemma SentIsFolded(next: nat, lane: Lane)
    requires lane.epochs != [] && CurrentOk(next, lane) && Current(lane).isTurn
    ensures Current(lane).base + SentOn(Current(lane)) <= Folded(lane)
  {
    CurrentFacts(next, lane);
  }

  /** A record read after `to` events, seen by the reader of a bus that has passed `at`
      events and would have read `record` then. */
  ghost predicate HasRead(found: Option<Task>, to: nat, at: nat, record: Option<Task>) {
    at <= to && (record.Some? ==> found.Some?) && (to == at ==> found == record)
  }

  lemma RunningHasRead(hist: seq<SeqEvent>, e: Epoch, at: nat, to: nat)
    requires e.base <= at <= to <= |hist|
    ensures HasRead(RecordTo(hist, e, to), to, at, RecordTo(hist, e, at))
  {
    if RecordTo(hist, e, at).Some? {
      RecordStays(hist, e, at, to);
    }
  }

  lemma LaterHasRead(hist: seq<SeqEvent>, e: Epoch, at: nat, record: Option<Task>, to: nat)
    requires Continues(hist, e, at, record) && e.base <= to <= |hist|
    ensures HasRead(RecordTo(hist, e, to), to, at, record)
  {
    RecordFromStart(hist, e);
    if record.Some? {
      RecordStays(hist, e, e.base, to);
    }
  }

  lemma RunningRead(lane: Lane, pos: nat, to: nat)
    requires lane.epochs != [] && pos <= |Current(lane).bus|
    requires Current(lane).base + SentOn(Current(lane)) <= to <= |lane.hist|
    ensures HasRead(RecordTo(lane.hist, Current(lane), to), to, Idx(Current(lane), pos),
                    RecordAt(lane, Current(lane), pos))
  {
    var e := Current(lane);
    IdxMonotone(e, pos, |e.bus|);
    RunningHasRead(lane.hist, e, Idx(e, pos), to);
  }

  lemma LaterRead(lane: Lane, b: nat, pos: nat, to: nat)
    requires AllChained(lane) && BusKnown(lane, b) && b + 1 < |lane.epochs| && pos <= |lane.epochs[b].bus|
    requires Current(lane).base <= to <= |lane.hist|
    ensures HasRead(RecordTo(lane.hist, Current(lane), to), to, Idx(lane.epochs[b], pos),
                    RecordAt(lane, lane.epochs[b], pos))
  {
    LaterContinues(lane, b, pos, |lane.epochs| - 1);
    LaterHasRead(lane.hist, Current(lane), Idx(lane.epochs[b], pos), RecordAt(lane, lane.epochs[b], pos), to);
  }

  /** Every read of the store, at whatever moment, finds at least what the reader of a bus
      had been sent by then. */
  lemma StoreHasRead(next: nat, lane: Lane, b: nat, pos: nat)
    requires LaneInv(next, lane) && BusKnown(lane, b) && pos <= |lane.epochs[b].bus|
    ensures Current(lane).base <= Folded(lane) <= |lane.hist|
    ensures lane.store == RecordTo(lane.hist, Current(lane), Folded(lane))
    ensures HasRead(lane.store, Folded(lane), Idx(lane.epochs[b], pos), RecordAt(lane, lane.epochs[b], pos))
  {
    StoreIsRecord(next, lane);
    if b == |lane.epochs| - 1 {
      SentIsFolded(next, lane);
      RunningRead(lane, pos, Folded(lane));
    } else {
      LaterRead(lane, b, pos, Folded(lane));
    }
  }

  lemma FinalRead(next: nat, lane: Lane, w: Waiter, w': Waiter)
    requires LaneInv(next, lane) && WaitInv(lane, w)
    requires w'.bus == w.bus && w'.pos == w.pos && w'.options == w.options
    requires w'.turns == |lane.epochs| && w'.folded == Folded(lane)
    ensures ReadRecord(lane, w', AnswerOf(lane.store, w.options.historyLength))
    ensures RecordAt(lane, lane.epochs[w.bus], w.pos).Some? ==> lane.store.Some?
  {
    BusIsKnown(next, lane, w.bus);
    StoreHasRead(next, lane, w.bus, w.pos);
  }

  // ---- The caller's own steps ----

  lemma ReadKeeps(lane: Lane, w: Waiter)
    requires w.phase.Waiting? && WaitInv(lane, w)
    requires var e := lane.epochs[w.bus];
             e.base + SentOn(e) <= |lane.hist|
    ensures WaitInv(lane, AfterWait(lane, w))
  {
    IdxMonotone(lane.epochs[w.bus], AfterWait(lane, w).pos, |lane.epochs[w.bus].bus|);
  }

  lemma WokenRecordIs(next: nat, lane: Lane, w: Waiter)
    requires LaneInv(next, lane) && w.phase.Woken? && WaitInv(lane, w)
    ensures var t := RecordAt(lane, lane.epochs[w.bus], w.pos);
            t.Some? && t.value.status == w.phase.status
  {
    BusIsKnown(next, lane, w.bus);
    RecordAtWaking(lane.hist, lane.epochs[w.bus], w.pos, w.phase.status);
  }

  lemma WokenKeeps(next: nat, lane: Lane, w: Waiter)
    requires LaneInv(next, lane) && w.phase.Woken? && WaitInv(lane, w)
    ensures WaitInv(lane, AfterWait(lane, w))
  {
    var w' := AfterWait(lane, w);
    WokenRecordIs(next, lane, w);
    FinalRead(next, lane, w, w');
    WokenAnswers(next, lane, w, w');
  }

  lemma WokenAnswers(next: nat, lane: Lane, w: Waiter, w': Waiter)
    requires LaneInv(next, lane) && w.phase.Woken? && WaitInv(lane, w) && w' == AfterWait(lane, w)
    requires lane.store.Some? && ReadRecord(lane, w', AnswerOf(lane.store, w.options.historyLength))
    ensures WaitInv(lane, w')
  {
    if IsClosing(w.phase.status) {
      ClosingIsLast(next, lane, w.bus, w.pos, w.phase.status);
    }
  }

  lemma ClosedKeeps(next: nat, lane: Lane, w: Waiter)
    requires LaneInv(next, lane) && w.phase.BusClosed? && WaitInv(lane, w)
    ensures WaitInv(lane, AfterWait(lane, w))
  {
    FinalRead(next, lane, w, AfterWait(lane, w));
    if w.bus == |lane.epochs| - 1 {
      ClosedIsWhole(next, lane, w.bus);
    }
  }

  lemma WaitStepKeeps(next: nat, lane: Lane, w: Waiter)
    requires LaneInv(next, lane) && WaitInv(lane, w)
    ensures WaitInv(lane, AfterWait(lane, w))
  {
    match w.phase
    case Waiting =>
      BusFacts(next, lane, w.bus);
      ReadKeeps(lane, w);
    case Woken(_) => WokenKeeps(next, lane, w);
    case BusClosed => ClosedKeeps(next, lane, w);
    case Answered(_, _) =>
  }
}
