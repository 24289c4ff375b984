/** What every step of the pipeline keeps true of a lane's log, store and buses. */
module PipelineInvariant {
  import opened Types
  import opened Sequences
  import opened Turns
  import opened Events
  import opened Pipeline

  function SentOn(e: Epoch): nat {
    |e.bus| - Off(e)
  }

  /** The bus carried exactly `span`, behind the task object if the span is task-shaped. */
  ghost predicate BusCarries(e: Epoch, span: seq<SeqEvent>) {
    && e.bus[Off(e)..] == span
    && Increasing(e.bus)
    && (Off(e) == 1 ==> e.bus[0].evt == TaskObject(LeadOf(e)))
    && (span != [] ==> (Off(e) == 1 <==> !span[0].evt.BareMessage?))
  }

  function FoldSpan(e: Epoch, span: seq<SeqEvent>): Option<Task> {
    FoldEvents(e.before, e.frame, e.isTurn, Payloads(span))
  }

  /** A turn or cancel that is over and logged `span`. */
  ghost predicate Over(e: Epoch, span: seq<SeqEvent>) {
    && !e.open
    && !IsTerminalTask(e.before)
    && (e.isTurn ==> BusCarries(e, span) && StopsOnlyLast(span, ItemCloses))
    && (!e.isTurn ==> e.bus == [] && e.before.Some?)
  }

  /** An epoch and its successor: the one is over, the other started from its result. */
  ghost predicate Chained(hist: seq<SeqEvent>, e: Epoch, succ: Epoch) {
    && e.base <= succ.base <= |hist|
    && Over(e, hist[e.base..succ.base])
    && succ.before == FoldSpan(e, hist[e.base..succ.base])
  }

  ghost predicate ChainedAt(lane: Lane, i: nat)
    requires i + 1 < |lane.epochs|
  {
    Chained(lane.hist, lane.epochs[i], lane.epochs[i + 1])
  }

  ghost predicate AllChained(lane: Lane) {
    forall i: nat | i < |lane.epochs| - 1 :: ChainedAt(lane, i)
  }

  ghost predicate HistOk(next: nat, hist: seq<SeqEvent>) {
    && Increasing(hist)
    && (forall i | 0 <= i < |hist| :: hist[i].seqNo < next && !hist[i].evt.TaskObject?)
  }

  /** The events logged since `base`, without the last `behind` of them. */
  function Span(hist: seq<SeqEvent>, base: nat, behind: nat): seq<SeqEvent> {
    if base + behind <= |hist| then hist[base..|hist| - behind] else []
  }

  function BehindBus(p: Phase): nat {
    if p.Appended? || p.Stored? then 1 else 0
  }

  /** What a running turn has sent so far, and what its pump remembers of it. */
  ghost predicate Carried(hist: seq<SeqEvent>, e: Epoch, sent: seq<SeqEvent>, first: bool, sawOutcome: bool) {
    && BusCarries(e, sent)
    && StopsOnlyLast(Span(hist, e.base, 0), ItemCloses)
    && (first <==> sent == [])
    && (sawOutcome <==> HasOutcome(Payloads(sent)))
  }

  /** The announced task goes out before the first event, under a smaller number. */
  ghost predicate LeadOk(next: nat, e: Epoch, w: Writer)
    requires w.Active?
  {
    var p := w.phase;
    && (w.first && (p.Receiving? || p.Received? || p.LeadTaken? || p.Ended? || p.Unregistered?) ==> e.bus == [])
    && (w.first && (p.Ready? || p.Taken? || p.Appended? || p.Stored?) ==> (e.bus != [] <==> !p.evt.BareMessage?))
    && (p.LeadTaken? ==> w.first && !p.evt.BareMessage?)
    && (forall i | 0 <= i < |e.bus| :: e.bus[i].seqNo < next)
    && (p.Taken? || p.Appended? || p.Stored? ==> forall i | 0 <= i < |e.bus| :: e.bus[i].seqNo < p.no)
  }

  predicate PumpOver(p: Phase) {
    p.Ended? || p.Unregistered?
  }

  /** The current turn while its pump runs. */
  ghost predicate PumpOk(next: nat, hist: seq<SeqEvent>, e: Epoch, w: Writer)
    requires w.Active?
  {
    var sent := Span(hist, e.base, BehindBus(w.phase));
    && Carried(hist, e, sent, w.first, w.sawOutcome)
    && (PumpOver(w.phase) || NoneStops(sent, ItemCloses))
    && LeadOk(next, e, w)
  }

  /** The phase of the writer against the log. */
  ghost predicate PhaseOk(next: nat, hist: seq<SeqEvent>, base: nat, p: Phase)
    requires base <= |hist|
  {
    match p
    case Receiving => true
    case Received(evt) => !evt.TaskObject?
    case LeadTaken(no, evt) => no < next && !evt.TaskObject?
    case Ready(evt) => !evt.TaskObject?
    case Taken(no, evt) => no < next && !evt.TaskObject? && forall i | 0 <= i < |hist| :: hist[i].seqNo < no
    case Appended(no, evt) => |hist| > base && hist[|hist| - 1] == SeqEvent(no, evt)
    case Stored(no, evt) => |hist| > base && hist[|hist| - 1] == SeqEvent(no, evt)
    case _ => true
  }

  /** A cancel never has a bus of its own, announces nothing and has a task to cancel. */
  ghost predicate CancelOk(lane: Lane, e: Epoch, p: Phase) {
    && !e.open && e.bus == [] && lane.registered == None && e.before.Some?
    && !p.Received? && !p.LeadTaken? && !p.Unregistered?
  }

  /** The last epoch against the whole lane. */
  ghost predicate CurrentOk(next: nat, lane: Lane)
    requires lane.epochs != []
  {
    var e, w, hist := Current(lane), lane.writer, lane.hist;
    && e.base <= |hist|
    && !IsTerminalTask(e.before)
    && (w.Active? ==> PhaseOk(next, hist, e.base, w.phase))
    && lane.store == FoldSpan(e, Span(hist, e.base, BehindStore(w)))
    && (w.NoWriter? ==> Over(e, Span(hist, e.base, 0)) && lane.registered == None)
    && (w.Active? && !e.isTurn ==> CancelOk(lane, e, w.phase))
    && (w.Active? && e.isTurn ==>
          && e.open
          && lane.registered == (if w.phase.Unregistered? then None else Some(|lane.epochs| - 1))
          && PumpOk(next, hist, e, w))
  }

  ghost predicate LaneInv(next: nat, lane: Lane) {
    && HistOk(next, lane.hist)
    && lane.log == Tail(lane.hist)
    && (lane.epochs == [] ==>
          lane.hist == [] && lane.store == None && lane.writer == NoWriter && lane.registered == None)
    && AllChained(lane)
    && (lane.epochs != [] ==> CurrentOk(next, lane))
  }

  lemma LaterCounter(next: nat, next': nat, lane: Lane)
    requires next <= next' && LaneInv(next, lane)
    ensures LaneInv(next', lane)
  {
  }

  /** Older epochs do not notice what happens to the log's end and the last epoch. */
  lemma ChainKept(lane: Lane, lane': Lane)
    requires AllChained(lane)
    requires lane.hist <= lane'.hist && |lane.epochs| == |lane'.epochs|
    requires forall i | 0 <= i < |lane.epochs| - 1 :: lane'.epochs[i] == lane.epochs[i]
    requires lane.epochs != [] ==>
               Current(lane').base == Current(lane).base && Current(lane').before == Current(lane).before
    ensures AllChained(lane')
  {
    forall i: nat | i < |lane'.epochs| - 1 ensures ChainedAt(lane', i) {
      var e, succ := lane.epochs[i], lane.epochs[i + 1];
      assert ChainedAt(lane, i);
      assert lane'.hist[e.base..succ.base] == lane.hist[e.base..succ.base];
    }
  }

  lemma FoldSpanSnoc(e: Epoch, span: seq<SeqEvent>, item: SeqEvent)
    ensures FoldSpan(e, span + [item]) == Applied(FoldSpan(e, span), e.frame, e.isTurn && span == [], item.evt)
  {
    PayloadsSnoc(span, item);
    FoldSnoc(e.before, e.frame, e.isTurn, Payloads(span), item.evt);
  }

  lemma StartKeeps(next: nat, lane: Lane, isTurn: bool, f: Frame, send: Option<SendOptions>, lane': Lane)
    requires LaneInv(next, lane)
    requires Enabled(lane, if isTurn then StartTurn(f, send) else StartCancel(f))
    requires lane' == AfterStart(lane, isTurn, f, send)
    ensures LaneInv(next, lane')
  {
    var n := |lane.epochs|;
    forall i: nat | i < n ensures ChainedAt(lane', i) {
      if i == n - 1 {
        assert Span(lane.hist, Current(lane).base, 0) == lane.hist[Current(lane).base..|lane.hist|];
      } else {
        assert ChainedAt(lane, i);
      }
    }
    assert Span(lane.hist, |lane.hist|, 0) == [];
    assert Payloads([]) == [];
  }

  /** A step that only moves the writer along, and perhaps the record with it. */
  lemma PhaseMoves(next: nat, lane: Lane, next': nat, lane': Lane)
    requires lane.epochs != [] && CurrentOk(next, lane) && next <= next'
    requires lane' == lane.(writer := lane'.writer, registered := lane'.registered, store := lane'.store)
    requires lane.writer.Active? && lane'.writer.Active?
    requires lane'.writer.first == lane.writer.first && lane'.writer.sawOutcome == lane.writer.sawOutcome
    requires BehindBus(lane'.writer.phase) == BehindBus(lane.writer.phase)
    requires PhaseOk(next', lane.hist, Current(lane).base, lane'.writer.phase)
    requires lane'.store == FoldSpan(Current(lane), Span(lane.hist, Current(lane).base, BehindStore(lane'.writer)))
    requires !Current(lane).isTurn ==> CancelOk(lane', Current(lane), lane'.writer.phase)
    requires Current(lane).isTurn ==>
               && LeadOk(next', Current(lane), lane'.writer)
               && lane'.registered == (if lane'.writer.phase.Unregistered? then None else Some(|lane.epochs| - 1))
               && (PumpOver(lane'.writer.phase) || !PumpOver(lane.writer.phase)
                   || NoneStops(Span(lane.hist, Current(lane).base, BehindBus(lane.writer.phase)), ItemCloses))
    ensures CurrentOk(next', lane')
  {
  }

  lemma RecvKeeps(next: nat, lane: Lane, evt: StreamResponse, lane': Lane)
    requires HistOk(next, lane.hist) && Enabled(lane, Recv(evt)) && CurrentOk(next, lane)
    requires lane' == AfterStep(next, lane, Recv(evt))
    ensures CurrentOk(next, lane')
  {
    PhaseMoves(next, lane, next, lane');
  }

  lemma EndKeeps(next: nat, lane: Lane, at: DateTime, lane': Lane)
    requires HistOk(next, lane.hist) && Enabled(lane, EndOfEvents(at)) && CurrentOk(next, lane)
    requires lane' == AfterStep(next, lane, EndOfEvents(at))
    ensures CurrentOk(next, lane')
  {
    PhaseMoves(next, lane, next, lane');
  }

  lemma DrawLeadKeeps(next: nat, lane: Lane, lane': Lane)
    requires HistOk(next, lane.hist) && Enabled(lane, DrawLead) && CurrentOk(next, lane)
    requires lane' == AfterStep(next, lane, DrawLead)
    ensures CurrentOk(next + 1, lane')
  {
    PhaseMoves(next, lane, next + 1, lane');
  }

  lemma SkipLeadKeeps(next: nat, lane: Lane, lane': Lane)
    requires HistOk(next, lane.hist) && Enabled(lane, SkipLead) && CurrentOk(next, lane)
    requires lane' == AfterStep(next, lane, SkipLead)
    ensures CurrentOk(next, lane')
  {
    PhaseMoves(next, lane, next, lane');
  }

  lemma DrawKeeps(next: nat, lane: Lane, lane': Lane)
    requires HistOk(next, lane.hist) && Enabled(lane, Draw) && CurrentOk(next, lane)
    requires lane' == AfterStep(next, lane, Draw)
    ensures CurrentOk(next + 1, lane')
  {
    PhaseMoves(next, lane, next + 1, lane');
  }

  lemma UnregisterKeeps(next: nat, lane: Lane, lane': Lane)
    requires HistOk(next, lane.hist) && Enabled(lane, Unregister) && CurrentOk(next, lane)
    requires lane' == AfterStep(next, lane, Unregister)
    ensures CurrentOk(next, lane')
  {
    PhaseMoves(next, lane, next, lane');
  }

  lemma SendLeadKeeps(next: nat, lane: Lane, lane': Lane)
    requires HistOk(next, lane.hist) && Enabled(lane, SendLead) && CurrentOk(next, lane)
    requires lane' == AfterStep(next, lane, SendLead)
    ensures CurrentOk(next, lane')
  {
  }

  lemma SpanSnoc(hist: seq<SeqEvent>, base: nat, item: SeqEvent)
    requires base <= |hist|
    ensures Span(hist + [item], base, 0) == Span(hist, base, 0) + [item]
    ensures Span(hist + [item], base, 1) == Span(hist, base, 0)
  {
  }

  lemma SpanLast(hist: seq<SeqEvent>, base: nat)
    requires base < |hist|
    ensures Span(hist, base, 0) == Span(hist, base, 1) + [hist[|hist| - 1]]
  {
  }

  lemma AppendPump(next: nat, hist: seq<SeqEvent>, e: Epoch, w: Writer)
    requires w.Active? && w.phase.Taken? && e.base <= |hist| && PumpOk(next, hist, e, w)
    ensures PumpOk(next, hist + [SeqEvent(w.phase.no, w.phase.evt)], e, w.(phase := Appended(w.phase.no, w.phase.evt)))
  {
    SpanSnoc(hist, e.base, SeqEvent(w.phase.no, w.phase.evt));
  }

  lemma AppendKeeps(next: nat, lane: Lane, lane': Lane)
    requires HistOk(next, lane.hist) && Enabled(lane, Append) && CurrentOk(next, lane)
    requires lane' == AfterAppend(lane)
    ensures CurrentOk(next, lane')
  {
    var e, p := Current(lane), lane.writer.phase;
    SpanSnoc(lane.hist, e.base, SeqEvent(p.no, p.evt));
    if e.isTurn {
      AppendPump(next, lane.hist, e, lane.writer);
    }
  }

  lemma PutStoreKeeps(next: nat, lane: Lane, lane': Lane)
    requires HistOk(next, lane.hist) && Enabled(lane, PutStore) && CurrentOk(next, lane)
    requires lane' == AfterPutStore(lane)
    ensures CurrentOk(next, lane')
  {
    var e, hist := Current(lane), lane.hist;
    SpanLast(hist, e.base);
    FoldSpanSnoc(e, Span(hist, e.base, 1), hist[|hist| - 1]);
    PhaseMoves(next, lane, next, lane');
  }

  lemma SendPump(next: nat, hist: seq<SeqEvent>, e: Epoch, w: Writer)
    requires w.Active? && w.phase.Stored? && e.base < |hist| && HistOk(next, hist) && PumpOk(next, hist, e, w)
    requires PhaseOk(next, hist, e.base, w.phase)
    ensures var p := w.phase;
            var phase := if p.evt.ClosesStream() || w.last then Ended else Receiving;
            PumpOk(next, hist, e.(bus := e.bus + [SeqEvent(p.no, p.evt)]),
                   Active(phase, false, w.sawOutcome || p.evt.IsTurnOutcome(), w.last))
  {
    SendCarried(hist, e, w);
    SpanLast(hist, e.base);
  }

  lemma SendCarried(hist: seq<SeqEvent>, e: Epoch, w: Writer)
    requires w.Active? && w.phase.Stored? && e.base < |hist| && hist[|hist| - 1] == SeqEvent(w.phase.no, w.phase.evt)
    requires Carried(hist, e, Span(hist, e.base, 1), w.first, w.sawOutcome) && !w.phase.evt.TaskObject?
    requires forall i | 0 <= i < |e.bus| :: e.bus[i].seqNo < w.phase.no
    requires w.first ==> (e.bus != [] <==> !w.phase.evt.BareMessage?)
    ensures Carried(hist, e.(bus := e.bus + [hist[|hist| - 1]]), Span(hist, e.base, 0), false,
                    w.sawOutcome || w.phase.evt.IsTurnOutcome())
  {
    var sent, item := Span(hist, e.base, 1), hist[|hist| - 1];
    SpanLast(hist, e.base);
    SendCarries(e, sent, item);
    PayloadsSnoc(sent, item);
    OutcomeGrows(Payloads(sent), item.evt);
  }

  lemma SentOnBus(next: nat, lane: Lane, lane': Lane, e': Epoch, w': Writer)
    requires w'.Active? && PumpOk(next, lane.hist, e', w')
    requires Enabled(lane, Send) && CurrentOk(next, lane) && Current(lane).isTurn
    requires lane' == AfterSend(lane) && w' == lane'.writer
    requires e' == Current(lane).(bus := Current(lane).bus + [SeqEvent(lane.writer.phase.no, lane.writer.phase.evt)])
    ensures CurrentOk(next, lane')
  {
    assert Current(lane') == e';
  }

  lemma SendTurnKeeps(next: nat, lane: Lane, lane': Lane)
    requires HistOk(next, lane.hist) && Enabled(lane, Send) && CurrentOk(next, lane) && Current(lane).isTurn
    requires lane' == AfterSend(lane)
    ensures CurrentOk(next, lane')
  {
    var e, p := Current(lane), lane.writer.phase;
    SendPump(next, lane.hist, e, lane.writer);
    SentOnBus(next, lane, lane', e.(bus := e.bus + [SeqEvent(p.no, p.evt)]), lane'.writer);
  }

  lemma SendKeeps(next: nat, lane: Lane, lane': Lane)
    requires HistOk(next, lane.hist) && Enabled(lane, Send) && CurrentOk(next, lane)
    requires lane' == AfterSend(lane)
    ensures CurrentOk(next, lane')
  {
    if Current(lane).isTurn {
      SendTurnKeeps(next, lane, lane');
    }
  }

  lemma OutcomeGrows(evs: seq<StreamResponse>, evt: StreamResponse)
    ensures HasOutcome(evs + [evt]) <==> HasOutcome(evs) || evt.IsTurnOutcome()
  {
    var longer := evs + [evt];
    if HasOutcome(evs) {
      var i :| 0 <= i < |evs| && evs[i].IsTurnOutcome();
      assert longer[i] == evs[i];
    }
    assert longer[|evs|] == evt;
  }

  lemma SendCarries(e: Epoch, sent: seq<SeqEvent>, item: SeqEvent)
    requires BusCarries(e, sent) && !item.evt.TaskObject?
    requires forall i | 0 <= i < |e.bus| :: e.bus[i].seqNo < item.seqNo
    requires sent == [] ==> (e.bus != [] <==> !item.evt.BareMessage?)
    ensures BusCarries(e.(bus := e.bus + [item]), sent + [item])
  {
    var e' := e.(bus := e.bus + [item]);
    assert Off(e') == Off(e);
    assert e'.bus[Off(e)..] == sent + [item];
  }

  lemma NoOutcomeNoneCloses(sent: seq<SeqEvent>)
    requires !HasOutcome(Payloads(sent))
    ensures NoneStops(sent, ItemCloses)
  {
    forall i | 0 <= i < |sent| ensures !ItemCloses(sent[i]) {
      assert Payloads(sent)[i] == sent[i].evt;
    }
  }

  lemma FailKeeps(next: nat, lane: Lane, reason: string, stamp: Stamp, lane': Lane)
    requires HistOk(next, lane.hist) && Enabled(lane, Fail(reason, stamp)) && CurrentOk(next, lane)
    requires lane' == AfterStep(next, lane, Fail(reason, stamp))
    ensures CurrentOk(next, lane')
  {
    NoOutcomeNoneCloses(Span(lane.hist, Current(lane).base, 0));
    PhaseMoves(next, lane, next, lane');
  }

  lemma ClosedCarries(e: Epoch, e': Epoch, span: seq<SeqEvent>)
    requires BusCarries(e, span) && e' == e.(open := false)
    ensures BusCarries(e', span)
  {
    assert Off(e') == Off(e) && LeadOf(e') == LeadOf(e);
  }

  lemma ExitKeeps(next: nat, lane: Lane, lane': Lane)
    requires HistOk(next, lane.hist) && Enabled(lane, Exit) && CurrentOk(next, lane)
    requires lane' == AfterExit(lane)
    ensures CurrentOk(next, lane')
  {
    var e, span := Current(lane), Span(lane.hist, Current(lane).base, 0);
    assert Current(lane') == e.(open := false);
    if e.isTurn {
      ClosedCarries(e, Current(lane'), span);
    }
    assert Over(Current(lane'), span);
  }

  predicate WriterStep(st: LaneStep) {
    !st.StartTurn? && !st.StartCancel? && !st.NewSub? && !st.AdvanceSub? && !st.AdvanceWaiter? && !st.AdvanceStreamer?
  }

  lemma WriterKeepsCurrent(next: nat, lane: Lane, st: LaneStep, next': nat, lane': Lane)
    requires WriterStep(st) && Enabled(lane, st) && HistOk(next, lane.hist) && CurrentOk(next, lane)
    requires next' == (if Draws(lane, st) then next + 1 else next) && lane' == AfterStep(next, lane, st)
    ensures CurrentOk(next', lane')
  {
    match st
    case Recv(evt) => RecvKeeps(next, lane, evt, lane');
    case EndOfEvents(at) => EndKeeps(next, lane, at, lane');
    case DrawLead => DrawLeadKeeps(next, lane, lane');
    case SkipLead => SkipLeadKeeps(next, lane, lane');
    case SendLead => SendLeadKeeps(next, lane, lane');
    case Draw => DrawKeeps(next, lane, lane');
    case Append => AppendKeeps(next, lane, lane');
    case PutStore => PutStoreKeeps(next, lane, lane');
    case Send => SendKeeps(next, lane, lane');
    case Fail(reason, stamp) => FailKeeps(next, lane, reason, stamp, lane');
    case Unregister => UnregisterKeeps(next, lane, lane');
    case Exit => ExitKeeps(next, lane, lane');
  }

  /** What a writer step leaves alone: all but the end of the log and the last epoch. */
  ghost predicate OnlyEndMoves(lane: Lane, lane': Lane) {
    && lane.hist <= lane'.hist && |lane.epochs| == |lane'.epochs|
    && (forall i | 0 <= i < |lane.epochs| - 1 :: lane'.epochs[i] == lane.epochs[i])
    && lane.epochs != []
    && Current(lane').base == Current(lane).base && Current(lane').before == Current(lane).before
  }

  lemma HistGrows(next: nat, hist: seq<SeqEvent>, item: SeqEvent)
    requires HistOk(next, hist) && item.seqNo < next && !item.evt.TaskObject?
    requires forall i | 0 <= i < |hist| :: hist[i].seqNo < item.seqNo
    ensures HistOk(next, hist + [item])
  {
  }

  lemma AppendMovesEnd(next: nat, lane: Lane, lane': Lane)
    requires Enabled(lane, Append) && HistOk(next, lane.hist) && CurrentOk(next, lane)
    requires lane' == AfterAppend(lane) && lane.log == Tail(lane.hist)
    ensures OnlyEndMoves(lane, lane') && HistOk(next, lane'.hist) && lane'.log == Tail(lane'.hist)
  {
    var item := SeqEvent(lane.writer.phase.no, lane.writer.phase.evt);
    PushedTail(lane.hist, item);
    HistGrows(next, lane.hist, item);
  }

  lemma OthersKeepLog(next: nat, lane: Lane, st: LaneStep, lane': Lane)
    requires WriterStep(st) && !st.Append? && Enabled(lane, st) && lane' == AfterStep(next, lane, st)
    ensures lane'.hist == lane.hist && lane'.log == lane.log && OnlyEndMoves(lane, lane')
  {
  }

  lemma WriterMovesEnd(next: nat, lane: Lane, st: LaneStep, next': nat, lane': Lane)
    requires WriterStep(st) && Enabled(lane, st) && HistOk(next, lane.hist) && CurrentOk(next, lane)
    requires next' == (if Draws(lane, st) then next + 1 else next) && lane' == AfterStep(next, lane, st)
    requires lane.log == Tail(lane.hist)
    ensures OnlyEndMoves(lane, lane') && HistOk(next', lane'.hist) && lane'.log == Tail(lane'.hist)
  {
    if st.Append? {
      AppendMovesEnd(next, lane, lane');
    } else {
      OthersKeepLog(next, lane, st, lane');
    }
  }

  lemma InvAgain(next: nat, lane: Lane, next': nat, lane': Lane)
    requires LaneInv(next, lane) && OnlyEndMoves(lane, lane')
    requires HistOk(next', lane'.hist) && lane'.log == Tail(lane'.hist) && CurrentOk(next', lane')
    ensures LaneInv(next', lane')
  {
    ChainKept(lane, lane');
  }

  lemma WriterStepKeepsLane(next: nat, lane: Lane, st: LaneStep, next': nat, lane': Lane)
    requires LaneInv(next, lane) && WriterStep(st) && Enabled(lane, st)
    requires next' == (if Draws(lane, st) then next + 1 else next) && lane' == AfterStep(next, lane, st)
    ensures LaneInv(next', lane')
  {
    WriterKeepsCurrent(next, lane, st, next', lane');
    WriterMovesEnd(next, lane, st, next', lane');
    InvAgain(next, lane, next', lane');
  }

  predicate ReaderStep(st: LaneStep) {
    st.NewSub? || st.AdvanceSub? || st.AdvanceWaiter? || st.AdvanceStreamer?
  }

  lemma ReaderStepMoves(next: nat, lane: Lane, st: LaneStep, lane': Lane)
    requires ReaderStep(st) && Enabled(lane, st) && lane' == AfterStep(next, lane, st)
    ensures lane' == lane.(subs := lane'.subs, waiters := lane'.waiters, streamers := lane'.streamers)
  {
  }

  /** Subscribers and callers only read. */
  lemma ReadersKeep(next: nat, lane: Lane, lane': Lane)
    requires LaneInv(next, lane)
    requires lane' == lane.(subs := lane'.subs, waiters := lane'.waiters, streamers := lane'.streamers)
    ensures LaneInv(next, lane')
  {
    ChainKept(lane, lane');
  }

  lemma ReaderStepKeepsLane(next: nat, lane: Lane, st: LaneStep, next': nat, lane': Lane)
    requires LaneInv(next, lane) && ReaderStep(st) && Enabled(lane, st)
    requires next <= next' && lane' == AfterStep(next, lane, st)
    ensures LaneInv(next', lane')
  {
    ReaderStepMoves(next, lane, st, lane');
    ReadersKeep(next, lane, lane');
    LaterCounter(next, next', lane');
  }

  lemma StartStepKeepsLane(next: nat, lane: Lane, st: LaneStep, lane': Lane)
    requires LaneInv(next, lane) && (st.StartTurn? || st.StartCancel?) && Enabled(lane, st)
    requires lane' == AfterStep(next, lane, st)
    ensures LaneInv(next, lane')
  {
    if st.StartTurn? {
      StartKeeps(next, lane, true, st.frame, st.send, lane');
    } else {
      StartKeeps(next, lane, false, st.frame, None, lane');
    }
  }

  lemma StepKeepsLane(next: nat, lane: Lane, st: LaneStep, next': nat, lane': Lane)
    requires LaneInv(next, lane) && Enabled(lane, st)
    requires next' == (if Draws(lane, st) then next + 1 else next) && lane' == AfterStep(next, lane, st)
    ensures LaneInv(next', lane')
  {
    if WriterStep(st) {
      WriterStepKeepsLane(next, lane, st, next', lane');
    } else if ReaderStep(st) {
      ReaderStepKeepsLane(next, lane, st, next', lane');
    } else {
      StartStepKeepsLane(next, lane, st, lane');
    }
  }
}
