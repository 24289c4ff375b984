/** Every whole turn and every whole cancel, as the sequential engine performs them, is a run
    of the pipeline: the steps of the machine, taken one after the other, log the same events,
    leave the same record and send the same stream. */
module SerialRuns {
  import opened Types
  import opened Sequences
  import opened Turns
  import opened Events
  import opened Pipeline
  import opened ServerEngine

  /** One more step on a task. */
  lemma Take(moves: seq<Move>, id: string, lane: Lane, st: LaneStep) returns (longer: seq<Move>)
    requires LaneAt(Run(moves), id) == lane && Enabled(lane, st)
    ensures longer == moves + [Move(id, st)]
    ensures LaneAt(Run(longer), id) == AfterStep(Run(moves).next, lane, st)
  {
    longer := moves + [Move(id, st)];
    assert longer[..|moves|] == moves;
  }

  /** Only steps on this task were taken. */
  ghost predicate Continued(moves: seq<Move>, id: string, longer: seq<Move>) {
    moves <= longer && forall k | |moves| <= k < |longer| :: longer[k].id == id
  }

  lemma ContinuedOn(a: seq<Move>, id: string, b: seq<Move>, c: seq<Move>)
    requires Continued(a, id, b) && Continued(b, id, c)
    ensures Continued(a, id, c)
  {
  }

  // ---- One event ----

  /** What one event does to a lane: it is logged, folded and, in a turn, sent. `led` is what
      was announced with it. */
  ghost predicate EventDone(lane: Lane, lane': Lane, evt: StreamResponse, led: seq<StreamResponse>)
    requires lane.epochs != [] && lane.writer.Active?
  {
    var e, w := Current(lane), lane.writer;
    && |lane'.hist| == |lane.hist| + 1 && lane.hist <= lane'.hist && lane'.hist[|lane.hist|].evt == evt
    && lane'.store == Applied(lane.store, e.frame, e.isTurn && w.first, evt)
    && |lane'.epochs| == |lane.epochs| && lane'.epochs[..|lane.epochs| - 1] == lane.epochs[..|lane.epochs| - 1]
    && Current(lane') == e.(bus := Current(lane').bus)
    && Payloads(Current(lane').bus) == Payloads(e.bus) + (if e.isTurn then led + [evt] else [])
    && lane'.registered == lane.registered
    && lane'.writer == Active(if (e.isTurn && evt.ClosesStream()) || w.last then Ended else Receiving, false,
                              w.sawOutcome || evt.IsTurnOutcome(), w.last)
  }

  lemma PayloadsOn(a: seq<SeqEvent>, item: SeqEvent)
    ensures Payloads(a + [item]) == Payloads(a) + [item.evt]
  {
  }

  /** The lane once a ready event, numbered `no`, is logged and folded. */
  function Recorded(lane: Lane, no: nat, evt: StreamResponse): Lane
    requires Writing(lane)
  {
    lane.(hist := lane.hist + [SeqEvent(no, evt)], log := Pushed(lane.log, SeqEvent(no, evt)),
          store := Applied(lane.store, Current(lane).frame, Current(lane).isTurn && lane.writer.first, evt),
          writer := lane.writer.(phase := Stored(no, evt)))
  }

  lemma RecordRuns(moves: seq<Move>, id: string, lane: Lane) returns (longer: seq<Move>)
    requires LaneAt(Run(moves), id) == lane && Writing(lane) && lane.writer.phase.Ready?
    ensures longer == moves + [Move(id, Draw), Move(id, Append), Move(id, PutStore)]
    ensures LaneAt(Run(longer), id) == Recorded(lane, Run(moves).next, lane.writer.phase.evt)
  {
    longer := Take(moves, id, lane, Draw);
    longer := Take(longer, id, LaneAt(Run(longer), id), Append);
    longer := Take(longer, id, LaneAt(Run(longer), id), PutStore);
  }

  /** From the moment an event is ready to be numbered until it is sent. */
  lemma ReadyRuns(moves: seq<Move>, id: string, lane: Lane) returns (longer: seq<Move>)
    requires LaneAt(Run(moves), id) == lane && Writing(lane) && lane.writer.phase.Ready?
    ensures Continued(moves, id, longer)
    ensures EventDone(lane, LaneAt(Run(longer), id), lane.writer.phase.evt, [])
  {
    longer := RecordRuns(moves, id, lane);
    longer := SendRuns(longer, id, Recorded(lane, Run(moves).next, lane.writer.phase.evt));
  }

  lemma SendRuns(moves: seq<Move>, id: string, lane: Lane) returns (longer: seq<Move>)
    requires LaneAt(Run(moves), id) == lane && Writing(lane) && lane.writer.phase.Stored?
    ensures longer == moves + [Move(id, Send)]
    ensures var lane', e, evt, w := LaneAt(Run(longer), id), Current(lane), lane.writer.phase.evt, lane.writer;
            && lane'.hist == lane.hist && lane'.store == lane.store && lane'.registered == lane.registered
            && |lane'.epochs| == |lane.epochs| && lane'.epochs[..|lane.epochs| - 1] == lane.epochs[..|lane.epochs| - 1]
            && Current(lane') == e.(bus := Current(lane').bus)
            && Payloads(Current(lane').bus) == Payloads(e.bus) + (if e.isTurn then [evt] else [])
            && lane'.writer == Active(if (e.isTurn && evt.ClosesStream()) || w.last then Ended else Receiving, false,
                                      w.sawOutcome || evt.IsTurnOutcome(), w.last)
  {
    longer := Take(moves, id, lane, Send);
    PayloadsOn(Current(lane).bus, SeqEvent(lane.writer.phase.no, lane.writer.phase.evt));
  }

  /** What is announced with the first event of a turn. */
  function Led(lane: Lane, evt: StreamResponse): seq<StreamResponse>
    requires Writing(lane)
  {
    if Current(lane).isTurn && lane.writer.first && !evt.BareMessage? then [TaskObject(LeadOf(Current(lane)))] else []
  }

  lemma AnnounceRuns(moves: seq<Move>, id: string, lane: Lane) returns (longer: seq<Move>)
    requires LaneAt(Run(moves), id) == lane && Writing(lane) && lane.writer.phase.Received? && NeedsLead(lane)
    ensures longer == moves + [Move(id, DrawLead), Move(id, SendLead)]
    ensures var item := SeqEvent(Run(moves).next, TaskObject(LeadOf(Current(lane))));
            LaneAt(Run(longer), id)
            == OnBus(lane, item).(writer := lane.writer.(phase := Ready(lane.writer.phase.evt)))
  {
    longer := Take(moves, id, lane, DrawLead);
    longer := Take(longer, id, LaneAt(Run(longer), id), SendLead);
  }

  lemma AnnouncedDone(lane: Lane, mid: Lane, lane': Lane, evt: StreamResponse, item: SeqEvent)
    requires Writing(lane) && Current(lane).isTurn
    requires mid == OnBus(lane, item).(writer := lane.writer.(phase := Ready(evt))) && EventDone(mid, lane', evt, [])
    ensures EventDone(lane, lane', evt, [item.evt])
  {
    var n := |lane.epochs| - 1;
    PayloadsOn(Current(lane).bus, item);
    assert [] + [evt] == [evt];
    assert Payloads(Current(lane).bus) + [item.evt] + [evt] == Payloads(Current(lane).bus) + ([item.evt] + [evt]);
    assert mid.epochs[..n] == lane.epochs[..n];
  }

  /** An event that a turn has received, or that it made up. */
  lemma ReceivedRuns(moves: seq<Move>, id: string, lane: Lane) returns (longer: seq<Move>)
    requires LaneAt(Run(moves), id) == lane && Writing(lane) && lane.writer.phase.Received? && Current(lane).isTurn
    ensures Continued(moves, id, longer)
    ensures EventDone(lane, LaneAt(Run(longer), id), lane.writer.phase.evt, Led(lane, lane.writer.phase.evt))
  {
    var evt, no := lane.writer.phase.evt, Run(moves).next;
    if NeedsLead(lane) {
      longer := AnnounceRuns(moves, id, lane);
      var mid := LaneAt(Run(longer), id);
      longer := ReadyRuns(longer, id, mid);
      AnnouncedDone(lane, mid, LaneAt(Run(longer), id), evt, SeqEvent(no, TaskObject(LeadOf(Current(lane)))));
    } else {
      longer := Take(moves, id, lane, SkipLead);
      longer := ReadyRuns(longer, id, LaneAt(Run(longer), id));
    }
  }

  // ---- A whole turn ----

  /** A turn of `lane0` that has applied the events `done`: they are what was logged since,
      the record is their fold, and the bus carried their stream. */
  ghost predicate TurnStands(lane0: Lane, lane: Lane, f: Frame, done: seq<StreamResponse>) {
    && Writing(lane) && |lane.epochs| == |lane0.epochs| + 1 && lane.epochs[..|lane0.epochs|] == lane0.epochs
    && Current(lane) == Epoch(true, f, lane0.store, |lane0.hist|, Current(lane).bus, true)
    && lane.registered == Some(|lane0.epochs|)
    && lane0.hist <= lane.hist && Payloads(lane.hist[|lane0.hist|..]) == done
    && lane.store == FoldEvents(lane0.store, f, true, done)
    && Payloads(Current(lane).bus) == TurnBus(LeadOf(Current(lane)), done)
    && (lane.writer.first <==> done == []) && (lane.writer.sawOutcome <==> HasOutcome(done))
  }

  lemma LoggedOneMore(hist0: seq<SeqEvent>, hist: seq<SeqEvent>, hist': seq<SeqEvent>, done: seq<StreamResponse>,
                      evt: StreamResponse)
    requires hist0 <= hist <= hist' && |hist'| == |hist| + 1 && hist'[|hist|].evt == evt
    requires Payloads(hist[|hist0|..]) == done
    ensures hist0 <= hist' && Payloads(hist'[|hist0|..]) == done + [evt]
  {
    assert hist'[|hist0|..] == hist[|hist0|..] + [hist'[|hist|]];
  }

  lemma EventStands(lane0: Lane, lane: Lane, lane': Lane, f: Frame, done: seq<StreamResponse>, evt: StreamResponse)
    requires TurnStands(lane0, lane, f, done) && NoneStops(done, Closes)
    requires EventDone(lane, lane', evt, Led(lane, evt))
    ensures TurnStands(lane0, lane', f, done + [evt])
  {
    LoggedOneMore(lane0.hist, lane.hist, lane'.hist, done, evt);
    FoldSnoc(lane0.store, f, true, done, evt);
    BusSnoc(LeadOf(Current(lane)), done, evt);
    OutcomeSnoc(done, evt);
    assert LeadOf(Current(lane')) == LeadOf(Current(lane));
  }

  lemma PhaseStands(lane0: Lane, lane: Lane, lane': Lane, f: Frame, done: seq<StreamResponse>)
    requires TurnStands(lane0, lane, f, done) && lane' == lane.(writer := lane'.writer) && lane'.writer.Active?
    requires lane'.writer.first == lane.writer.first && lane'.writer.sawOutcome == lane.writer.sawOutcome
    ensures TurnStands(lane0, lane', f, done)
  {
  }

  /** One event from the executor that is not dropped. */
  lemma HeardRuns(moves: seq<Move>, id: string, lane0: Lane, lane: Lane, f: Frame, done: seq<StreamResponse>,
                  evt: StreamResponse) returns (longer: seq<Move>)
    requires LaneAt(Run(moves), id) == lane && TurnStands(lane0, lane, f, done) && NoneStops(done, Closes)
    requires lane.writer.phase.Receiving? && !lane.writer.last && !evt.TaskObject? && !IsEmptyArtifactUpdate(evt)
    ensures Continued(moves, id, longer)
    ensures var lane' := LaneAt(Run(longer), id);
            && TurnStands(lane0, lane', f, done + [evt]) && !lane'.writer.last
            && lane'.writer.phase == if evt.ClosesStream() then Ended else Receiving
  {
    longer := Take(moves, id, lane, Recv(evt));
    var mid := LaneAt(Run(longer), id);
    PhaseStands(lane0, lane, mid, f, done);
    longer := ReceivedRuns(longer, id, mid);
    EventStands(lane0, mid, LaneAt(Run(longer), id), f, done, evt);
  }

  lemma DropRuns(moves: seq<Move>, id: string, lane: Lane, evt: StreamResponse) returns (longer: seq<Move>)
    requires LaneAt(Run(moves), id) == lane && Writing(lane) && lane.writer.phase.Receiving?
    requires IsEmptyArtifactUpdate(evt)
    ensures Continued(moves, id, longer) && LaneAt(Run(longer), id) == lane
  {
    longer := Take(moves, id, lane, Recv(evt));
  }

  /** A pump that has looked at the first `i` events: it is listening for more, or over. */
  ghost predicate Pumping(lane0: Lane, lane: Lane, f: Frame, raw: seq<StreamResponse>, i: nat,
                          done: seq<StreamResponse>, over: bool)
  {
    && TurnStands(lane0, lane, f, done) && Looked(raw, i, done, done == [], HasOutcome(done)) && !lane.writer.last
    && lane.writer.phase == (if over then Ended else Receiving) && (over <==> !NoneStops(done, Closes))
  }

  lemma HearOne(moves: seq<Move>, id: string, lane0: Lane, f: Frame, raw: seq<StreamResponse>, i: nat,
                done: seq<StreamResponse>) returns (longer: seq<Move>)
    requires Pumping(lane0, LaneAt(Run(moves), id), f, raw, i, done, false) && i < |raw|
    requires !raw[i].TaskObject? && !IsEmptyArtifactUpdate(raw[i])
    ensures Continued(moves, id, longer)
    ensures Pumping(lane0, LaneAt(Run(longer), id), f, raw, i + 1, done + [raw[i]], raw[i].ClosesStream())
  {
    LookOn(raw, i, done, done == [], HasOutcome(done));
    OutcomeSnoc(done, raw[i]);
    longer := HeardRuns(moves, id, lane0, LaneAt(Run(moves), id), f, done, raw[i]);
  }

  lemma DropOne(moves: seq<Move>, id: string, lane0: Lane, f: Frame, raw: seq<StreamResponse>, i: nat,
                done: seq<StreamResponse>) returns (longer: seq<Move>)
    requires Pumping(lane0, LaneAt(Run(moves), id), f, raw, i, done, false) && i < |raw|
    requires IsEmptyArtifactUpdate(raw[i])
    ensures Continued(moves, id, longer) && Pumping(lane0, LaneAt(Run(longer), id), f, raw, i + 1, done, false)
  {
    LookOn(raw, i, done, done == [], HasOutcome(done));
    longer := DropRuns(moves, id, LaneAt(Run(moves), id), raw[i]);
  }

  lemma PumpedAll(lane0: Lane, lane: Lane, f: Frame, raw: seq<StreamResponse>, i: nat, done: seq<StreamResponse>,
                  over: bool)
    requires Pumping(lane0, lane, f, raw, i, done, over) && (i == |raw| || over)
    ensures TurnStands(lane0, lane, f, Processed(raw)) && !lane.writer.last
    ensures lane.writer.phase.Receiving? || lane.writer.phase.Ended?
  {
    LookEnds(raw, i, done, done == [], HasOutcome(done));
  }

  lemma {:induction false} LoopRuns(moves: seq<Move>, id: string, lane0: Lane, f: Frame, raw: seq<StreamResponse>,
                                    i: nat, done: seq<StreamResponse>, over: bool) returns (longer: seq<Move>)
    requires Pumping(lane0, LaneAt(Run(moves), id), f, raw, i, done, over) && i <= |raw| && NoTaskObjects(raw)
    ensures Continued(moves, id, longer)
    ensures var lane' := LaneAt(Run(longer), id);
            && TurnStands(lane0, lane', f, Processed(raw)) && !lane'.writer.last
            && (lane'.writer.phase.Receiving? || lane'.writer.phase.Ended?)
    decreases |raw| - i
  {
    if i == |raw| || over {
      PumpedAll(lane0, LaneAt(Run(moves), id), f, raw, i, done, over);
      longer := moves;
    } else if IsEmptyArtifactUpdate(raw[i]) {
      var after := DropOne(moves, id, lane0, f, raw, i, done);
      longer := LoopRuns(after, id, lane0, f, raw, i + 1, done, false);
      ContinuedOn(moves, id, after, longer);
    } else {
      var after := HearOne(moves, id, lane0, f, raw, i, done);
      longer := LoopRuns(after, id, lane0, f, raw, i + 1, done + [raw[i]], raw[i].ClosesStream());
      ContinuedOn(moves, id, after, longer);
    }
  }

  /** Starting a turn in any reachable state: its bus is registered and empty, and the client
      that sent the message is on it from the start, to wait or to stream. */
  lemma TurnStarts(moves: seq<Move>, id: string, f: Frame, send: Option<SendOptions>)
    requires var lane0 := LaneAt(Run(moves), id);
             && lane0.writer.NoWriter?
             && (lane0.store.Some? ==> !(lane0.store.value.status.state in {Completed, Failed, Canceled, Rejected}))
    ensures var lane0 := LaneAt(Run(moves), id);
            var lane, b := LaneAt(Run(moves + [Move(id, StartTurn(f, send))]), id), |lane0.epochs|;
            && |lane.epochs| == b + 1 && lane.registered == Some(b)
            && lane.epochs[b] == Epoch(true, f, lane0.store, |lane0.hist|, [], true)
            && match send
               case Some(options) =>
                 && lane.waiters == lane0.waiters + [Waiter(b, 0, Waiting, options, 0, 0, false)]
                 && lane.streamers == lane0.streamers
               case None =>
                 && lane.waiters == lane0.waiters
                 && lane.streamers == lane0.streamers + [Streamer(b, 0, [], false, false)]
  {
    var longer := Take(moves, id, LaneAt(Run(moves), id), StartTurn(f, send));
  }

  lemma StartRuns(moves: seq<Move>, id: string, lane0: Lane, f: Frame, send: Option<SendOptions>)
    returns (longer: seq<Move>)
    requires LaneAt(Run(moves), id) == lane0 && Enabled(lane0, StartTurn(f, send))
    ensures Continued(moves, id, longer)
    ensures var lane := LaneAt(Run(longer), id);
            TurnStands(lane0, lane, f, []) && lane.writer.phase.Receiving? && !lane.writer.last
  {
    longer := Take(moves, id, lane0, StartTurn(f, send));
    var lane := LaneAt(Run(longer), id);
    assert lane.epochs[..|lane0.epochs|] == lane0.epochs;
    assert Payloads(lane.hist[|lane0.hist|..]) == [];
  }

  /** The executor is done, and perhaps failed before it had any outcome. */
  lemma EndRuns(moves: seq<Move>, id: string, lane0: Lane, f: Frame, raw: seq<StreamResponse>, ending: Ending,
                stamp: Stamp) returns (longer: seq<Move>)
    requires var lane := LaneAt(Run(moves), id);
             && TurnStands(lane0, lane, f, Processed(raw)) && !lane.writer.last
             && (lane.writer.phase.Receiving? || lane.writer.phase.Ended?)
    ensures Continued(moves, id, longer)
    ensures var lane' := LaneAt(Run(longer), id);
            TurnStands(lane0, lane', f, TurnEvents(f, raw, ending, stamp)) && lane'.writer.phase.Ended?
  {
    var lane := LaneAt(Run(moves), id);
    longer := moves;
    if lane.writer.phase.Receiving? {
      longer := Take(moves, id, lane, EndOfEvents(stamp.at));
      PhaseStands(lane0, lane, LaneAt(Run(longer), id), f, Processed(raw));
    }
    if !HasOutcome(Processed(raw)) && !ending.ReturnedOk? {
      longer := FailureRuns(longer, id, lane0, f, Processed(raw), FailureText(ending), stamp);
    }
  }

  lemma FailureRuns(moves: seq<Move>, id: string, lane0: Lane, f: Frame, done: seq<StreamResponse>, reason: string,
                    stamp: Stamp) returns (longer: seq<Move>)
    requires var lane := LaneAt(Run(moves), id);
             TurnStands(lane0, lane, f, done) && !lane.writer.last && lane.writer.phase.Ended? && !HasOutcome(done)
    ensures Continued(moves, id, longer)
    ensures var lane' := LaneAt(Run(longer), id);
            TurnStands(lane0, lane', f, done + [FailureEvent(f, reason, stamp)]) && lane'.writer.phase.Ended?
  {
    var lane := LaneAt(Run(moves), id);
    NoOutcomeNoClose(done);
    longer := Take(moves, id, lane, Fail(reason, stamp));
    var mid := LaneAt(Run(longer), id);
    PhaseStands(lane0, lane, mid, f, done);
    longer := ReceivedRuns(longer, id, mid);
    EventStands(lane0, mid, LaneAt(Run(longer), id), f, done, FailureEvent(f, reason, stamp));
  }

  /** A turn of `lane0` that is over and applied `evs`. */
  ghost predicate TurnRan(lane0: Lane, lane: Lane, f: Frame, evs: seq<StreamResponse>) {
    && lane.writer.NoWriter? && lane.registered.None?
    && |lane.epochs| == |lane0.epochs| + 1 && lane.epochs[..|lane0.epochs|] == lane0.epochs
    && Current(lane) == Epoch(true, f, lane0.store, |lane0.hist|, Current(lane).bus, false)
    && lane0.hist <= lane.hist && Payloads(lane.hist[|lane0.hist|..]) == evs
    && lane.store == FoldEvents(lane0.store, f, true, evs)
    && Payloads(Current(lane).bus) == TurnBus(LeadOf(Current(lane)), evs)
  }

  lemma LeaveRuns(moves: seq<Move>, id: string, lane0: Lane, f: Frame, evs: seq<StreamResponse>)
    returns (longer: seq<Move>)
    requires var lane := LaneAt(Run(moves), id);
             TurnStands(lane0, lane, f, evs) && lane.writer.phase.Ended?
    ensures Continued(moves, id, longer) && TurnRan(lane0, LaneAt(Run(longer), id), f, evs)
  {
    var lane := LaneAt(Run(moves), id);
    longer := Take(moves, id, lane, Unregister);
    longer := Take(longer, id, LaneAt(Run(longer), id), Exit);
    var lane' := LaneAt(Run(longer), id);
    assert LeadOf(Current(lane')) == LeadOf(Current(lane));
    assert lane'.epochs[..|lane0.epochs|] == lane.epochs[..|lane0.epochs|];
  }

  lemma BodyRuns(moves: seq<Move>, id: string, lane0: Lane, f: Frame, raw: seq<StreamResponse>, ending: Ending,
                 stamp: Stamp) returns (longer: seq<Move>)
    requires NoTaskObjects(raw)
    requires var lane := LaneAt(Run(moves), id);
             TurnStands(lane0, lane, f, []) && lane.writer.phase.Receiving? && !lane.writer.last
    ensures Continued(moves, id, longer)
    ensures TurnRan(lane0, LaneAt(Run(longer), id), f, TurnEvents(f, raw, ending, stamp))
  {
    LookStarts(raw);
    var heard := LoopRuns(moves, id, lane0, f, raw, 0, [], false);
    var ended := EndRuns(heard, id, lane0, f, raw, ending, stamp);
    ContinuedOn(moves, id, heard, ended);
    longer := LeaveRuns(ended, id, lane0, f, TurnEvents(f, raw, ending, stamp));
    ContinuedOn(moves, id, ended, longer);
  }

  /** From every reachable state in which no turn or cancel is at work on a task that is not
      terminal, whatever an executor reports and however it ends, the machine can run the
      turn exactly as the sequential engine does. */
  lemma TurnsRun(moves: seq<Move>, id: string, f: Frame, send: Option<SendOptions>, raw: seq<StreamResponse>,
                 ending: Ending, stamp: Stamp)
    requires NoTaskObjects(raw)
    requires var lane0 := LaneAt(Run(moves), id);
             && lane0.writer.NoWriter?
             && (lane0.store.Some? ==> !(lane0.store.value.status.state in {Completed, Failed, Canceled, Rejected}))
    ensures exists longer: seq<Move> ::
              && Continued(moves, id, longer)
              && TurnRan(LaneAt(Run(moves), id), LaneAt(Run(longer), id), f, TurnEvents(f, raw, ending, stamp))
  {
    var lane0 := LaneAt(Run(moves), id);
    var started := StartRuns(moves, id, lane0, f, send);
    var longer := BodyRuns(started, id, lane0, f, raw, ending, stamp);
    ContinuedOn(moves, id, started, longer);
  }

  // ---- A whole cancel ----

  ghost predicate CancelStands(lane0: Lane, lane: Lane, f: Frame, done: seq<StreamResponse>) {
    && Writing(lane) && |lane.epochs| == |lane0.epochs| + 1 && lane.epochs[..|lane0.epochs|] == lane0.epochs
    && Current(lane) == Epoch(false, f, lane0.store, |lane0.hist|, [], false)
    && lane0.hist <= lane.hist && Payloads(lane.hist[|lane0.hist|..]) == done
    && lane.store == FoldEvents(lane0.store, f, false, done)
  }

  lemma CancelEventStands(lane0: Lane, lane: Lane, lane': Lane, f: Frame, done: seq<StreamResponse>,
                          evt: StreamResponse)
    requires CancelStands(lane0, lane, f, done) && EventDone(lane, lane', evt, [])
    ensures CancelStands(lane0, lane', f, done + [evt])
  {
    LoggedOneMore(lane0.hist, lane.hist, lane'.hist, done, evt);
    FoldSnoc(lane0.store, f, false, done, evt);
    assert Payloads(Current(lane').bus) == [];
  }

  lemma EmittedRuns(moves: seq<Move>, id: string, lane0: Lane, lane: Lane, f: Frame, done: seq<StreamResponse>,
                    evt: StreamResponse) returns (longer: seq<Move>)
    requires LaneAt(Run(moves), id) == lane && CancelStands(lane0, lane, f, done)
    requires lane.writer.phase.Receiving? && !lane.writer.last && !evt.TaskObject? && !IsEmptyArtifactUpdate(evt)
    ensures Continued(moves, id, longer)
    ensures var lane' := LaneAt(Run(longer), id);
            CancelStands(lane0, lane', f, done + [evt]) && lane'.writer.phase.Receiving? && !lane'.writer.last
  {
    longer := Take(moves, id, lane, Recv(evt));
    var mid := LaneAt(Run(longer), id);
    assert CancelStands(lane0, mid, f, done);
    longer := ReadyRuns(longer, id, mid);
    CancelEventStands(lane0, mid, LaneAt(Run(longer), id), f, done, evt);
  }

  lemma {:induction false} CancelLoopRuns(moves: seq<Move>, id: string, lane0: Lane, f: Frame,
                                          emitted: seq<StreamResponse>, i: nat) returns (longer: seq<Move>)
    requires i <= |emitted| && NoTaskObjects(emitted)
    requires var lane := LaneAt(Run(moves), id);
             && CancelStands(lane0, lane, f, Filter(emitted[..i], Kept))
             && lane.writer.phase.Receiving? && !lane.writer.last
    ensures Continued(moves, id, longer)
    ensures var lane' := LaneAt(Run(longer), id);
            && CancelStands(lane0, lane', f, Filter(emitted, Kept))
            && lane'.writer.phase.Receiving? && !lane'.writer.last
    decreases |emitted| - i
  {
    if i == |emitted| {
      assert emitted[..i] == emitted;
      longer := moves;
    } else {
      KeptSnoc(emitted, i);
      if IsEmptyArtifactUpdate(emitted[i]) {
        longer := DropRuns(moves, id, LaneAt(Run(moves), id), emitted[i]);
      } else {
        longer := EmittedRuns(moves, id, lane0, LaneAt(Run(moves), id), f, Filter(emitted[..i], Kept), emitted[i]);
      }
      longer := CancelLoopRuns(longer, id, lane0, f, emitted, i + 1);
    }
  }

  /** The override is done; a Canceled status follows if it left the task open. */
  lemma CancelEndRuns(moves: seq<Move>, id: string, lane0: Lane, f: Frame, emitted: seq<StreamResponse>, at: DateTime)
    returns (longer: seq<Move>)
    requires var lane := LaneAt(Run(moves), id);
             && CancelStands(lane0, lane, f, Filter(emitted, Kept))
             && lane.writer.phase.Receiving? && !lane.writer.last
    ensures Continued(moves, id, longer)
    ensures var lane' := LaneAt(Run(longer), id);
            CancelStands(lane0, lane', f, CancelEvents(lane0.store, f, emitted, at)) && lane'.writer.phase.Ended?
  {
    var lane, done := LaneAt(Run(moves), id), Filter(emitted, Kept);
    longer := NoMoreRuns(moves, id, lane0, lane, f, done, at);
    if !IsTerminalTask(lane.store) {
      var mid := LaneAt(Run(longer), id);
      longer := ReadyRuns(longer, id, mid);
      CancelEventStands(lane0, mid, LaneAt(Run(longer), id), f, done, CanceledEvent(f, at));
    }
  }

  lemma NoMoreRuns(moves: seq<Move>, id: string, lane0: Lane, lane: Lane, f: Frame, done: seq<StreamResponse>,
                   at: DateTime) returns (longer: seq<Move>)
    requires LaneAt(Run(moves), id) == lane && CancelStands(lane0, lane, f, done) && lane.writer.phase.Receiving?
    ensures Continued(moves, id, longer)
    ensures var lane' := LaneAt(Run(longer), id);
            && CancelStands(lane0, lane', f, done)
            && if IsTerminalTask(lane.store) then lane'.writer.phase.Ended?
               else lane'.writer.phase == Ready(CanceledEvent(f, at)) && lane'.writer.last
  {
    longer := Take(moves, id, lane, EndOfEvents(at));
  }

  /** The same for every cancel of a task that is not terminal: the machine can run it
      exactly as the sequential engine does. */
  lemma CancelsRun(moves: seq<Move>, id: string, f: Frame, emitted: seq<StreamResponse>, at: DateTime)
    requires NoTaskObjects(emitted)
    requires var lane0 := LaneAt(Run(moves), id);
             && lane0.writer.NoWriter? && lane0.store.Some?
             && !(lane0.store.value.status.state in {Completed, Failed, Canceled, Rejected})
    ensures exists longer: seq<Move> ::
              var lane0, lane := LaneAt(Run(moves), id), LaneAt(Run(longer), id);
              var evs := CancelEvents(lane0.store, f, emitted, at);
              && Continued(moves, id, longer) && lane.writer.NoWriter?
              && lane0.hist <= lane.hist && Payloads(lane.hist[|lane0.hist|..]) == evs
              && lane.store == FoldEvents(lane0.store, f, false, evs)
  {
    var lane0 := LaneAt(Run(moves), id);
    var started := Take(moves, id, lane0, StartCancel(f));
    CancelStarts(lane0, LaneAt(Run(started), id), f);
    assert emitted[..0] == [];
    var heard := CancelLoopRuns(started, id, lane0, f, emitted, 0);
    ContinuedOn(moves, id, started, heard);
    var ended := CancelEndRuns(heard, id, lane0, f, emitted, at);
    ContinuedOn(moves, id, heard, ended);
    var longer := CancelExitRuns(ended, id, lane0, f, CancelEvents(lane0.store, f, emitted, at));
    ContinuedOn(moves, id, ended, longer);
  }

  lemma CancelExitRuns(moves: seq<Move>, id: string, lane0: Lane, f: Frame, evs: seq<StreamResponse>)
    returns (longer: seq<Move>)
    requires var lane := LaneAt(Run(moves), id);
             CancelStands(lane0, lane, f, evs) && lane.writer.phase.Ended?
    ensures Continued(moves, id, longer)
    ensures var lane := LaneAt(Run(longer), id);
            && lane.writer.NoWriter? && lane0.hist <= lane.hist && Payloads(lane.hist[|lane0.hist|..]) == evs
            && lane.store == FoldEvents(lane0.store, f, false, evs)
  {
    longer := Take(moves, id, LaneAt(Run(moves), id), Exit);
  }

  lemma CancelStarts(lane0: Lane, lane: Lane, f: Frame)
    requires lane == AfterStart(lane0, false, f, None)
    ensures CancelStands(lane0, lane, f, []) && lane.writer == Active(Receiving, true, false, false)
  {
    assert lane.epochs[..|lane0.epochs|] == lane0.epochs;
    assert Payloads(lane.hist[|lane0.hist|..]) == [];
  }
}
