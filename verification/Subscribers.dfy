/** Subscriptions: what a subscriber attached to a turn's bus is delivered, whatever
    the interleaving. */
module Subscribers {
  import opened Types
  import opened Sequences
  import opened Turns
  import opened Events
  import opened Pipeline
  import opened PipelineInvariant

  // ---- How lanes grow ----

  ghost predicate EpochGrows(e: Epoch, e': Epoch) {
    && e'.isTurn == e.isTurn && e'.frame == e.frame && e'.before == e.before && e'.base == e.base
    && e.bus <= e'.bus
    && (!e.open ==> e'.bus == e.bus && !e'.open)
  }

  ghost predicate Grows(lane: Lane, lane': Lane) {
    && lane.hist <= lane'.hist
    && |lane.epochs| <= |lane'.epochs|
    && (forall i | 0 <= i < |lane.epochs| :: EpochGrows(lane.epochs[i], lane'.epochs[i]))
  }

  lemma OnBusGrows(lane: Lane, item: SeqEvent)
    requires lane.epochs != [] && Current(lane).open
    ensures Grows(lane, OnBus(lane, item))
  {
  }

  lemma WritersBusOpen(next: nat, lane: Lane)
    requires LaneInv(next, lane) && Writing(lane) && Current(lane).isTurn
    ensures Current(lane).open
  {
  }

  lemma SameEpochsGrow(lane: Lane, lane': Lane)
    requires lane.hist <= lane'.hist && lane'.epochs == lane.epochs
    ensures Grows(lane, lane')
  {
  }

  lemma ExitGrows(lane: Lane)
    requires Writing(lane)
    ensures Grows(lane, AfterExit(lane))
  {
  }

  lemma StartGrows(lane: Lane, isTurn: bool, f: Frame, send: Option<SendOptions>)
    ensures Grows(lane, AfterStart(lane, isTurn, f, send))
  {
  }

  lemma StepGrows(next: nat, lane: Lane, st: LaneStep)
    requires LaneInv(next, lane) && Enabled(lane, st)
    ensures Grows(lane, AfterStep(next, lane, st))
  {
    match st
    case StartTurn(f, send) => StartGrows(lane, true, f, send);
    case StartCancel(f) => StartGrows(lane, false, f, None);
    case Exit => ExitGrows(lane);
    case SendLead =>
      assert CurrentOk(next, lane);
      WritersBusOpen(next, lane);
      OnBusGrows(lane, SeqEvent(lane.writer.phase.no, TaskObject(LeadOf(Current(lane)))));
    case Send =>
      if Current(lane).isTurn {
        WritersBusOpen(next, lane);
        OnBusGrows(lane, SeqEvent(lane.writer.phase.no, lane.writer.phase.evt));
      }
    case _ => SameEpochsGrow(lane, AfterStep(next, lane, st));
  }

  // ---- Buses against the log ----

  lemma CarriesPrefix(hist: seq<SeqEvent>, e: Epoch, to: nat)
    requires e.base <= to <= |hist| && BusCarries(e, hist[e.base..to])
    ensures to == e.base + SentOn(e)
  {
  }

  lemma ChainedFacts(hist: seq<SeqEvent>, e: Epoch, succ: Epoch)
    requires Chained(hist, e, succ) && e.isTurn
    ensures e.base + SentOn(e) == succ.base <= |hist| && BusCarries(e, hist[e.base..e.base + SentOn(e)]) && !e.open
  {
    CarriesPrefix(hist, e, succ.base);
  }

  /** What a turn's bus holds, in terms of the whole event history. */
  lemma BusFacts(next: nat, lane: Lane, b: nat)
    requires LaneInv(next, lane) && b < |lane.epochs| && lane.epochs[b].isTurn
    ensures var e := lane.epochs[b];
            && e.base + SentOn(e) <= |lane.hist|
            && BusCarries(e, lane.hist[e.base..e.base + SentOn(e)])
            && (e.open ==> b == |lane.epochs| - 1 && lane.writer.Active?)
  {
    if b < |lane.epochs| - 1 {
      assert ChainedAt(lane, b);
      ChainedFacts(lane.hist, lane.epochs[b], lane.epochs[b + 1]);
    } else {
      CurrentFacts(next, lane);
    }
  }

  lemma BehindIsInside(next: nat, lane: Lane)
    requires lane.epochs != [] && CurrentOk(next, lane) && lane.writer.Active?
    ensures Current(lane).base + BehindBus(lane.writer.phase) <= |lane.hist|
    ensures Behind(lane) == BehindBus(lane.writer.phase)
    ensures Behind(lane) == 1 ==> lane.hist[|lane.hist| - 1].seqNo == InFlight(lane).value
  {
  }

  /** The bus of the current turn carries everything logged but what is in flight. */
  lemma TurnSent(next: nat, lane: Lane)
    requires lane.epochs != [] && CurrentOk(next, lane) && Current(lane).isTurn
    ensures Current(lane).base <= |lane.hist| - Behind(lane)
    ensures BusCarries(Current(lane), lane.hist[Current(lane).base..|lane.hist| - Behind(lane)])
  {
    if lane.writer.Active? {
      BehindIsInside(next, lane);
      assert BusCarries(Current(lane), Span(lane.hist, Current(lane).base, Behind(lane)));
    } else {
      assert BusCarries(Current(lane), Span(lane.hist, Current(lane).base, 0));
    }
  }

  lemma OpenIsRunning(next: nat, lane: Lane)
    requires lane.epochs != [] && CurrentOk(next, lane) && Current(lane).isTurn
    ensures Current(lane).open ==> lane.writer.Active?
  {
  }

  lemma CurrentFacts(next: nat, lane: Lane)
    requires lane.epochs != [] && CurrentOk(next, lane) && Current(lane).isTurn
    ensures var e := Current(lane);
            && e.base + SentOn(e) == |lane.hist| - Behind(lane)
            && BusCarries(e, lane.hist[e.base..e.base + SentOn(e)])
            && (e.open ==> lane.writer.Active?)
  {
    TurnSent(next, lane);
    OpenIsRunning(next, lane);
    CarriesPrefix(lane.hist, Current(lane), |lane.hist| - Behind(lane));
  }

  lemma IdxKept(e: Epoch, e': Epoch, pos: nat)
    requires EpochGrows(e, e') && pos <= |e.bus|
    ensures Idx(e', pos) == Idx(e, pos)
  {
  }

  // ---- The invariant of one subscription ----

  const IsEvent := (x: SeqEvent) => !x.evt.TaskObject?

  /** What was delivered, without task objects announced on the bus. */
  function EventsOf(out: seq<SeqEvent>): seq<SeqEvent> {
    Filter(out, IsEvent)
  }

  /** The history index of the first replayed event. */
  function From(sub: Sub): int {
    sub.snap - |sub.replay|
  }

  /** The history index of the first event the stream can deliver. */
  function Start(sub: Sub): int {
    if sub.replay == [] then sub.sent0 else From(sub)
  }

  /** What can have been logged since attaching: first the event in flight then, if there
      was one, and otherwise only events numbered later. */
  ghost predicate SinceAttach(next: nat, lane: Lane, sub: Sub) {
    && sub.counter <= next && sub.sent0 <= |lane.hist|
    && (forall j | 0 <= j < sub.sent0 :: lane.hist[j].seqNo < sub.counter)
    && (forall j | 0 <= j < sub.sent0 :: sub.pending.Some? ==> lane.hist[j].seqNo < sub.pending.value)
    && (forall j | sub.sent0 <= j < |lane.hist| ::
          lane.hist[j].seqNo >= sub.counter || (j == sub.sent0 && sub.pending == Some(lane.hist[j].seqNo)))
    && (sub.pending.Some? ==>
          if sub.sent0 == |lane.hist| then InFlight(lane) == sub.pending
          else lane.hist[sub.sent0].seqNo == sub.pending.value)
    && (InFlight(lane).Some? ==> InFlight(lane).value >= sub.counter || InFlight(lane) == sub.pending)
  }

  ghost predicate AttachedOk(next: nat, lane: Lane, sub: Sub) {
    sub.bus.Some? ==>
      && sub.bus.value < |lane.epochs|
      && var e := lane.epochs[sub.bus.value];
      && e.isTurn && sub.pos <= |e.bus| && sub.sent0 <= Idx(e, sub.pos)
      && SinceAttach(next, lane, sub)
  }

  /** Nothing has been read from the bus since attaching. */
  ghost predicate Unread(lane: Lane, sub: Sub) {
    sub.bus.Some? && sub.bus.value < |lane.epochs| ==> Idx(lane.epochs[sub.bus.value], sub.pos) == sub.sent0
  }

  ghost predicate SnapOk(lane: Lane, sub: Sub) {
    && sub.snap <= |lane.hist|
    && (sub.bus.Some? ==> sub.sent0 <= sub.snap)
    && sub.replay == ReplayOf(lane.hist, sub.snap, sub.since)
    && sub.maxReplayed == (if sub.replay == [] then None else Some(sub.replay[|sub.replay| - 1].seqNo))
  }

  /** The delivered events are the stretch of history from the first replayed one. */
  ghost predicate Delivered(hist: seq<SeqEvent>, from: int, out: seq<SeqEvent>, to: nat) {
    0 <= from <= to <= |hist| && EventsOf(out) == hist[from..to]
  }

  /** The last delivered number is behind everything still to be read. */
  predicate BehindReader(e: Epoch, pos: nat, max: Option<nat>, out: seq<SeqEvent>) {
    out != [] ==>
      var last := out[|out| - 1].seqNo;
      (max.Some? && last <= max.value) || (0 < pos <= |e.bus| && last <= e.bus[pos - 1].seqNo)
  }

  ghost predicate LiveOk(lane: Lane, e: Epoch, sub: Sub) {
    && sub.pos <= |e.bus|
    && NoneStops(sub.out, ItemCloses)
    && Increasing(sub.out)
    && BehindReader(e, sub.pos, sub.maxReplayed, sub.out)
    && (sub.gap.None? ==> Delivered(lane.hist, Start(sub), sub.out, Max(Covered(sub), Idx(e, sub.pos))))
  }

  /** How far an attached stream can reach. */
  function Horizon(lane: Lane, sub: Sub): nat
    requires sub.bus.Some? && sub.bus.value < |lane.epochs|
  {
    var e := lane.epochs[sub.bus.value];
    if e.open then |lane.hist| else Max(Covered(sub), e.base + SentOn(e))
  }

  /** A stream ends with a closing event, or - its bus closed - at its horizon. */
  ghost predicate EndedOn(hist: seq<SeqEvent>, from: int, horizon: nat, open: bool, exact: bool, out: seq<SeqEvent>) {
    && Increasing(out)
    && StopsOnlyLast(out, ItemCloses)
    && (exact ==>
          var to := from + |EventsOf(out)|;
          && 0 <= to <= horizon && Delivered(hist, from, out, to)
          && ((out != [] && ItemCloses(out[|out| - 1])) || (!open && to == horizon)))
  }

  ghost predicate EndedOk(lane: Lane, sub: Sub)
    requires sub.bus.Some? && sub.bus.value < |lane.epochs|
  {
    EndedOn(lane.hist, Start(sub), Horizon(lane, sub), lane.epochs[sub.bus.value].open, sub.gap.None?, sub.out)
  }

  ghost predicate IdleOk(sub: Sub) {
    if sub.since.None? then sub.out == []
    else |sub.out| == |sub.replay| + 1 && sub.out[..|sub.replay|] == sub.replay
         && sub.out[|sub.replay|].evt.TaskObject?
  }

  ghost predicate SubInv(next: nat, lane: Lane, sub: Sub) {
    match sub.phase
    case Reading => sub.bus == None && sub.out == [] && sub.gap.None?
    case Attaching(_) => sub.bus == None && sub.out == [] && sub.gap.None?
    case Refused => sub.bus == None && sub.out == []
    case Snapshotting(_) =>
      AttachedOk(next, lane, sub) && Unread(lane, sub) && sub.out == [] && sub.gap.None?
    case Leading(_) =>
      AttachedOk(next, lane, sub) && Unread(lane, sub) && SnapOk(lane, sub) && sub.out == [] && sub.gap.None?
    case Replaying(i) =>
      && sub.bus.Some? && AttachedOk(next, lane, sub) && Unread(lane, sub) && SnapOk(lane, sub) && sub.gap.None?
      && i <= |sub.replay| && sub.out == sub.replay[..i] && NoneStops(sub.out, ItemCloses)
    case Live =>
      && sub.bus.Some? && AttachedOk(next, lane, sub) && SnapOk(lane, sub)
      && LiveOk(lane, lane.epochs[sub.bus.value], sub)
    case Done =>
      && AttachedOk(next, lane, sub) && SnapOk(lane, sub)
      && (if sub.bus.Some? then EndedOk(lane, sub) else IdleOk(sub))
    case IdleReplaying(i, tail) =>
      && sub.bus == None && sub.since.Some? && SnapOk(lane, sub) && tail.evt.TaskObject?
      && i <= |sub.replay| && sub.out == sub.replay[..i]
  }

  // ---- The replay is a stretch of history ----

  function ReplayOf(hist: seq<SeqEvent>, snap: nat, since: Option<nat>): seq<SeqEvent>
    requires snap <= |hist|
  {
    Filter(Tail(hist[..snap]), PastId(since))
  }

  lemma ReplaySlice(hist: seq<SeqEvent>, snap: nat, since: Option<nat>)
    requires Increasing(hist) && snap <= |hist|
    ensures var r := ReplayOf(hist, snap, since);
            && |r| <= snap && r == hist[snap - |r|..snap]
            && (r != [] ==> r[|r| - 1] == hist[snap - 1])
            && (r == [] && snap > 0 ==> since.Some? && forall j | 0 <= j < snap :: hist[j].seqNo <= since.value)
  {
    var r := ReplayOf(hist, snap, since);
    PastSlice(hist, snap, since);
    if r == [] && snap > 0 {
      LastIsPast(hist, snap, since);
    }
  }

  lemma PastSlice(hist: seq<SeqEvent>, snap: nat, since: Option<nat>)
    requires Increasing(hist) && snap <= |hist|
    ensures var r := Filter(Tail(hist[..snap]), PastId(since));
            |r| <= snap && r == hist[snap - |r|..snap]
  {
    var log := Tail(hist[..snap]);
    var cut := snap - |log|;
    assert log == hist[cut..snap];
    PastIsSuffix(log, since);
    var k := |log| - |Filter(log, PastId(since))|;
    assert log[k..] == hist[cut + k..snap];
  }

  lemma LastIsPast(hist: seq<SeqEvent>, snap: nat, since: Option<nat>)
    requires Increasing(hist) && 0 < snap <= |hist|
    requires Filter(Tail(hist[..snap]), PastId(since)) == []
    ensures since.Some? && forall j | 0 <= j < snap :: hist[j].seqNo <= since.value
  {
    var log := Tail(hist[..snap]);
    PastIsSuffix(log, since);
    assert !PastId(since)(log[|log| - 1]);
    assert log[|log| - 1] == hist[snap - 1];
  }

  // ---- Growth of the lane under a subscriber ----

  /** An event between log and bus is the last one logged. */
  predicate LoggedInFlight(lane: Lane) {
    lane.writer.Active? && (lane.writer.phase.Appended? || lane.writer.phase.Stored?) ==>
      lane.hist != [] && lane.hist[|lane.hist| - 1].seqNo == lane.writer.phase.no
  }

  lemma InFlightIsLogged(next: nat, lane: Lane)
    requires LaneInv(next, lane)
    ensures LoggedInFlight(lane)
  {
  }

  lemma SinceAttachLogged(next: nat, lane: Lane, sub: Sub, lane': Lane)
    requires Enabled(lane, Append) && lane' == AfterAppend(lane)
    requires Increasing(lane'.hist) && SinceAttach(next, lane, sub)
    ensures SinceAttach(next, lane', sub)
  {
    var n, no := |lane.hist|, lane.writer.phase.no;
    assert lane'.hist[n].seqNo == no && InFlight(lane) == Some(no) == InFlight(lane');
    if sub.sent0 < n {
      assert lane'.hist[sub.sent0] == lane.hist[sub.sent0] && lane'.hist[sub.sent0].seqNo < no;
    }
  }

  lemma SinceAttachKept(next: nat, lane: Lane, st: LaneStep, sub: Sub, next': nat, lane': Lane)
    requires Enabled(lane, st) && Increasing(lane'.hist) && LoggedInFlight(lane) && SinceAttach(next, lane, sub)
    requires lane' == AfterStep(next, lane, st) && next' == if Draws(lane, st) then next + 1 else next
    ensures SinceAttach(next', lane', sub)
  {
    if st.Append? {
      SinceAttachLogged(next, lane, sub, lane');
    } else {
      assert lane'.hist == lane.hist;
      assert InFlight(lane').Some? ==> InFlight(lane') == InFlight(lane) || InFlight(lane').value == next;
    }
  }

  lemma SnapKept(lane: Lane, lane': Lane, sub: Sub)
    requires SnapOk(lane, sub) && lane.hist <= lane'.hist
    ensures SnapOk(lane', sub)
  {
    assert lane'.hist[..sub.snap] == lane.hist[..sub.snap];
  }

  lemma AttachedKept(next: nat, lane: Lane, st: LaneStep, sub: Sub, next': nat, lane': Lane)
    requires Enabled(lane, st) && Grows(lane, lane') && Increasing(lane'.hist) && LoggedInFlight(lane)
    requires AttachedOk(next, lane, sub)
    requires lane' == AfterStep(next, lane, st) && next' == if Draws(lane, st) then next + 1 else next
    ensures AttachedOk(next', lane', sub)
    ensures Unread(lane, sub) ==> Unread(lane', sub)
  {
    if sub.bus.Some? {
      SinceAttachKept(next, lane, st, sub, next', lane');
      assert EpochGrows(lane.epochs[sub.bus.value], lane'.epochs[sub.bus.value]);
      IdxKept(lane.epochs[sub.bus.value], lane'.epochs[sub.bus.value], sub.pos);
    }
  }

  lemma DeliveredKept(hist: seq<SeqEvent>, hist': seq<SeqEvent>, from: int, out: seq<SeqEvent>, to: nat)
    requires Delivered(hist, from, out, to) && hist <= hist'
    ensures Delivered(hist', from, out, to)
  {
    assert hist'[from..to] == hist[from..to];
  }

  lemma StepKeepsOrder(next: nat, lane: Lane, st: LaneStep, next': nat, lane': Lane)
    requires LaneInv(next, lane) && Enabled(lane, st)
    requires lane' == AfterStep(next, lane, st) && next' == if Draws(lane, st) then next + 1 else next
    ensures Increasing(lane'.hist)
  {
    StepKeepsLane(next, lane, st, next', lane');
  }

  lemma EarlySubKept(next: nat, lane: Lane, st: LaneStep, sub: Sub, next': nat, lane': Lane)
    requires Enabled(lane, st) && Grows(lane, lane') && Increasing(lane'.hist) && LoggedInFlight(lane)
    requires lane' == AfterStep(next, lane, st) && next' == if Draws(lane, st) then next + 1 else next
    requires SubInv(next, lane, sub) && !sub.phase.Live? && !sub.phase.Done?
    ensures SubInv(next', lane', sub)
  {
    if sub.phase.IdleReplaying? {
      SnapKept(lane, lane', sub);
    } else if sub.phase.Snapshotting? {
      AttachedKept(next, lane, st, sub, next', lane');
    } else if sub.phase.Leading? || sub.phase.Replaying? {
      AttachedKept(next, lane, st, sub, next', lane');
      SnapKept(lane, lane', sub);
    }
  }

  lemma LiveSubKept(next: nat, lane: Lane, st: LaneStep, sub: Sub, next': nat, lane': Lane)
    requires Enabled(lane, st) && Grows(lane, lane') && Increasing(lane'.hist) && LoggedInFlight(lane)
    requires lane' == AfterStep(next, lane, st) && next' == if Draws(lane, st) then next + 1 else next
    requires SubInv(next, lane, sub) && sub.phase.Live?
    ensures SubInv(next', lane', sub)
  {
    AttachedKept(next, lane, st, sub, next', lane');
    SnapKept(lane, lane', sub);
    LiveKept(lane, lane', sub);
  }

  lemma DoneSubKept(next: nat, lane: Lane, st: LaneStep, sub: Sub, next': nat, lane': Lane)
    requires LaneInv(next, lane) && Enabled(lane, st)
    requires Grows(lane, lane') && Increasing(lane'.hist) && LoggedInFlight(lane)
    requires lane' == AfterStep(next, lane, st) && next' == if Draws(lane, st) then next + 1 else next
    requires SubInv(next, lane, sub) && sub.phase.Done?
    ensures SubInv(next', lane', sub)
  {
    AttachedKept(next, lane, st, sub, next', lane');
    SnapKept(lane, lane', sub);
    if sub.bus.Some? {
      EndedKept(next, lane, st, sub, lane');
    }
  }

  lemma SubKept(next: nat, lane: Lane, st: LaneStep, sub: Sub, next': nat, lane': Lane)
    requires LaneInv(next, lane) && Enabled(lane, st) && SubInv(next, lane, sub)
    requires lane' == AfterStep(next, lane, st) && next' == if Draws(lane, st) then next + 1 else next
    ensures SubInv(next', lane', sub)
  {
    StepGrows(next, lane, st);
    StepKeepsOrder(next, lane, st, next', lane');
    InFlightIsLogged(next, lane);
    if sub.phase.Live? {
      LiveSubKept(next, lane, st, sub, next', lane');
    } else if sub.phase.Done? {
      DoneSubKept(next, lane, st, sub, next', lane');
    } else {
      EarlySubKept(next, lane, st, sub, next', lane');
    }
  }

  lemma LiveKept(lane: Lane, lane': Lane, sub: Sub)
    requires Grows(lane, lane') && sub.bus.Some? && sub.bus.value < |lane.epochs|
    requires LiveOk(lane, lane.epochs[sub.bus.value], sub)
    ensures LiveOk(lane', lane'.epochs[sub.bus.value], sub)
  {
    var e, e' := lane.epochs[sub.bus.value], lane'.epochs[sub.bus.value];
    assert EpochGrows(e, e');
    IdxKept(e, e', sub.pos);
    if sub.gap.None? {
      DeliveredKept(lane.hist, lane'.hist, Start(sub), sub.out, Max(Covered(sub), Idx(e, sub.pos)));
    }
  }

  lemma EndedKept(next: nat, lane: Lane, st: LaneStep, sub: Sub, lane': Lane)
    requires LaneInv(next, lane) && Enabled(lane, st) && lane' == AfterStep(next, lane, st) && Grows(lane, lane')
    requires AttachedOk(next, lane, sub) && SnapOk(lane, sub) && sub.bus.Some? && EndedOk(lane, sub)
    ensures sub.bus.value < |lane'.epochs| && EndedOk(lane', sub)
  {
    HorizonKept(next, lane, st, lane', sub);
    EndedOnKept(lane.hist, lane'.hist, Start(sub), Horizon(lane, sub), Horizon(lane', sub),
                lane.epochs[sub.bus.value].open, lane'.epochs[sub.bus.value].open, sub.gap.None?, sub.out);
  }

  lemma EndedOnKept(hist: seq<SeqEvent>, hist': seq<SeqEvent>, from: int, horizon: nat, horizon': nat,
                    open: bool, open': bool, exact: bool, out: seq<SeqEvent>)
    requires EndedOn(hist, from, horizon, open, exact, out) && hist <= hist' && horizon <= horizon'
    requires !open ==> !open' && horizon' == horizon
    ensures EndedOn(hist', from, horizon', open', exact, out)
  {
    if exact {
      DeliveredKept(hist, hist', from, out, from + |EventsOf(out)|);
    }
  }

  /** A horizon only moves while the bus is open, and then only forward: when a bus
      closes, everything logged has been sent on it. */
  lemma HorizonKept(next: nat, lane: Lane, st: LaneStep, lane': Lane, sub: Sub)
    requires LaneInv(next, lane) && Enabled(lane, st) && lane' == AfterStep(next, lane, st) && Grows(lane, lane')
    requires sub.bus.Some? && sub.bus.value < |lane.epochs| && lane.epochs[sub.bus.value].isTurn
    requires sub.snap <= |lane.hist|
    ensures Horizon(lane, sub) <= Horizon(lane', sub)
    ensures !lane.epochs[sub.bus.value].open ==>
              !lane'.epochs[sub.bus.value].open && Horizon(lane', sub) == Horizon(lane, sub)
  {
    var b := sub.bus.value;
    assert EpochGrows(lane.epochs[b], lane'.epochs[b]);
    if lane.epochs[b].open && !lane'.epochs[b].open {
      BusFacts(next, lane, b);
      assert CurrentOk(next, lane);
      assert st.Exit?;
    }
  }

  // ---- The subscriber's own steps ----

  lemma AttachKeeps(next: nat, lane: Lane, sub: Sub, sub': Sub)
    requires LaneInv(next, lane) && sub.phase.Attaching? && SubInv(next, lane, sub)
    requires sub' == AfterAttach(next, lane, sub)
    ensures SubInv(next, lane, sub')
  {
    if lane.registered.Some? {
      assert CurrentOk(next, lane);
      AttachedHere(next, lane);
      RegisteredIsCurrent(next, lane);
      AttachStarts(next, lane, sub');
    }
  }

  /** Attaching puts the reader exactly after what has been sent. */
  lemma AttachedHere(next: nat, lane: Lane)
    requires lane.epochs != [] && CurrentOk(next, lane) && lane.registered.Some?
    ensures lane.registered.value == |lane.epochs| - 1 && Current(lane).isTurn
    ensures Idx(Current(lane), |Current(lane).bus|) == |lane.hist| - Behind(lane)
  {
    RegisteredIsCurrent(next, lane);
    CurrentFacts(next, lane);
  }

  lemma RegisteredIsCurrent(next: nat, lane: Lane)
    requires lane.epochs != [] && CurrentOk(next, lane) && lane.registered.Some?
    ensures lane.writer.Active? && Current(lane).isTurn && lane.registered.value == |lane.epochs| - 1
  {
  }

  lemma AttachStarts(next: nat, lane: Lane, sub: Sub)
    requires lane.epochs != [] && CurrentOk(next, lane) && HistOk(next, lane.hist) && lane.writer.Active?
    requires sub.counter == next && sub.pending == InFlight(lane) && sub.sent0 == |lane.hist| - Behind(lane)
    ensures SinceAttach(next, lane, sub)
  {
    BehindIsInside(next, lane);
  }

  lemma SnapshotKeeps(next: nat, lane: Lane, sub: Sub, sub': Sub)
    requires lane.log == Tail(lane.hist) && sub.phase.Snapshotting? && SubInv(next, lane, sub)
    requires sub' == AfterSnapshot(lane, sub)
    ensures SubInv(next, lane, sub')
  {
    assert lane.hist[..|lane.hist|] == lane.hist;
  }

  lemma {:induction false} NoTaskObjectsKept(s: seq<SeqEvent>)
    requires forall i | 0 <= i < |s| :: !s[i].evt.TaskObject?
    ensures EventsOf(s) == s
  {
    FilterAll(s, IsEvent);
  }

  lemma StretchIncreasing(hist: seq<SeqEvent>, from: nat, to: nat)
    requires Increasing(hist) && from <= to <= |hist|
    ensures Increasing(hist[from..to])
  {
  }

  lemma TakeOfStretch(hist: seq<SeqEvent>, from: nat, to: nat, i: nat)
    requires from + i <= to <= |hist|
    ensures hist[from..to][..i] == hist[from..from + i]
  {
  }

  /** The beginning of a stretch of history is one too. */
  lemma TakeDelivers(next: nat, hist: seq<SeqEvent>, from: nat, to: nat, r: seq<SeqEvent>, i: nat)
    requires HistOk(next, hist) && from <= to <= |hist| && r == hist[from..to] && i <= |r|
    ensures Increasing(r[..i]) && Delivered(hist, from, r[..i], from + i)
  {
    TakeOfStretch(hist, from, to, i);
    StretchDelivers(next, hist, from, from + i);
  }

  lemma StretchDelivers(next: nat, hist: seq<SeqEvent>, from: nat, to: nat)
    requires HistOk(next, hist) && from <= to <= |hist|
    ensures Increasing(hist[from..to]) && Delivered(hist, from, hist[from..to], to)
  {
    StretchIncreasing(hist, from, to);
    NoTaskObjectsKept(hist[from..to]);
  }

  lemma StopsLast(s: seq<SeqEvent>, i: nat)
    requires i < |s| && NoneStops(s[..i], ItemCloses)
    ensures s[..i] + [s[i]] == s[..i + 1]
    ensures StopsOnlyLast(s[..i + 1], ItemCloses)
    ensures ItemCloses(s[i]) || NoneStops(s[..i + 1], ItemCloses)
  {
    assert s[..i] + [s[i]] == s[..i + 1];
  }

  /** A subscription that has read further and delivered more. */
  function ReadOn(sub: Sub, phase: SubPhase, pos: nat, out: seq<SeqEvent>, gap: Option<nat>): Sub {
    sub.(phase := phase, pos := pos, out := out, gap := gap)
  }

  /** What a subscription keeps once it has taken its snapshot. */
  ghost predicate Standing(next: nat, lane: Lane, sub: Sub) {
    sub.bus.Some? && AttachedOk(next, lane, sub) && SnapOk(lane, sub)
  }

  lemma StandingKept(next: nat, lane: Lane, sub: Sub, phase: SubPhase, pos: nat, out: seq<SeqEvent>, gap: Option<nat>)
    requires Standing(next, lane, sub) && sub.pos <= pos <= |lane.epochs[sub.bus.value].bus|
    ensures Standing(next, lane, ReadOn(sub, phase, pos, out, gap))
    ensures sub.pos == pos && Unread(lane, sub) ==> Unread(lane, ReadOn(sub, phase, pos, out, gap))
  {
    IdxMonotone(lane.epochs[sub.bus.value], sub.pos, pos);
  }

  lemma LiveAgain(next: nat, lane: Lane, sub: Sub, pos: nat, out: seq<SeqEvent>, gap: Option<nat>)
    requires Standing(next, lane, sub) && sub.pos <= pos <= |lane.epochs[sub.bus.value].bus|
    requires NoneStops(out, ItemCloses) && Increasing(out)
    requires BehindReader(lane.epochs[sub.bus.value], pos, sub.maxReplayed, out)
    requires gap.None? ==>
               Delivered(lane.hist, Start(sub), out, Max(Covered(sub), Idx(lane.epochs[sub.bus.value], pos)))
    ensures SubInv(next, lane, ReadOn(sub, Live, pos, out, gap))
  {
    StandingKept(next, lane, sub, Live, pos, out, gap);
  }

  lemma EndsHere(next: nat, lane: Lane, sub: Sub, pos: nat, out: seq<SeqEvent>, to: nat)
    requires Standing(next, lane, sub) && sub.pos <= pos <= |lane.epochs[sub.bus.value].bus|
    requires StopsOnlyLast(out, ItemCloses) && Increasing(out)
    requires sub.gap.None? ==> to <= Horizon(lane, sub) && Delivered(lane.hist, Start(sub), out, to)
    requires || (out != [] && ItemCloses(out[|out| - 1]))
             || (!lane.epochs[sub.bus.value].open && (sub.gap.None? ==> to == Horizon(lane, sub)))
    ensures SubInv(next, lane, ReadOn(sub, Done, pos, out, sub.gap))
  {
    StandingKept(next, lane, sub, Done, pos, out, sub.gap);
    EndsOn(lane.hist, Start(sub), Horizon(lane, sub), lane.epochs[sub.bus.value].open, sub.gap.None?, out, to);
    EndsOk(lane, sub, pos, out);
    DoneAgain(next, lane, ReadOn(sub, Done, pos, out, sub.gap));
  }

  lemma EndsOk(lane: Lane, sub: Sub, pos: nat, out: seq<SeqEvent>)
    requires sub.bus.Some? && sub.bus.value < |lane.epochs|
    requires EndedOn(lane.hist, Start(sub), Horizon(lane, sub), lane.epochs[sub.bus.value].open, sub.gap.None?, out)
    ensures EndedOk(lane, ReadOn(sub, Done, pos, out, sub.gap))
  {
  }

  lemma DoneAgain(next: nat, lane: Lane, sub: Sub)
    requires Standing(next, lane, sub) && sub.phase.Done? && EndedOk(lane, sub)
    ensures SubInv(next, lane, sub)
  {
  }

  lemma EndsOn(hist: seq<SeqEvent>, from: int, horizon: nat, open: bool, exact: bool, out: seq<SeqEvent>, to: nat)
    requires StopsOnlyLast(out, ItemCloses) && Increasing(out)
    requires exact ==> to <= horizon && Delivered(hist, from, out, to)
    requires (out != [] && ItemCloses(out[|out| - 1])) || (!open && (exact ==> to == horizon))
    ensures EndedOn(hist, from, horizon, open, exact, out)
  {
  }

  lemma ReplayMore(next: nat, lane: Lane, sub: Sub, i: nat)
    requires sub.phase == Replaying(i) && SubInv(next, lane, sub)
    requires i < |sub.replay| && !ItemCloses(sub.replay[i])
    ensures SubInv(next, lane, ReadOn(sub, Replaying(i + 1), sub.pos, sub.replay[..i + 1], sub.gap))
  {
    StopsLast(sub.replay, i);
    StandingKept(next, lane, sub, Replaying(i + 1), sub.pos, sub.replay[..i + 1], sub.gap);
  }

  lemma ReplayedSome(next: nat, hist: seq<SeqEvent>, sub: Sub, i: nat)
    requires HistOk(next, hist) && sub.snap <= |hist| && sub.replay == ReplayOf(hist, sub.snap, sub.since)
    requires i <= |sub.replay|
    ensures 0 <= From(sub) && From(sub) + i <= sub.snap
    ensures Increasing(sub.replay[..i]) && Delivered(hist, From(sub), sub.replay[..i], From(sub) + i)
  {
    ReplaySlice(hist, sub.snap, sub.since);
    TakeDelivers(next, hist, From(sub), sub.snap, sub.replay, i);
  }

  lemma HorizonPastReplay(lane: Lane, sub: Sub)
    requires sub.bus.Some? && sub.bus.value < |lane.epochs| && sub.snap <= |lane.hist|
    ensures Covered(sub) <= Horizon(lane, sub)
  {
  }

  lemma ReplayStands(next: nat, lane: Lane, sub: Sub)
    requires sub.phase.Replaying? && SubInv(next, lane, sub)
    ensures Standing(next, lane, sub) && sub.pos <= |lane.epochs[sub.bus.value].bus|
    ensures sub.snap <= |lane.hist| && sub.replay == ReplayOf(lane.hist, sub.snap, sub.since)
    ensures sub.phase.next <= |sub.replay| && NoneStops(sub.replay[..sub.phase.next], ItemCloses)
  {
  }

  lemma ReplayedClosing(next: nat, hist: seq<SeqEvent>, sub: Sub, i: nat, out: seq<SeqEvent>)
    requires HistOk(next, hist) && sub.snap <= |hist| && sub.replay == ReplayOf(hist, sub.snap, sub.since)
    requires i < |sub.replay| && ItemCloses(sub.replay[i]) && NoneStops(sub.replay[..i], ItemCloses)
    requires out == sub.replay[..i + 1]
    ensures StopsOnlyLast(out, ItemCloses) && Increasing(out) && out != [] && ItemCloses(out[|out| - 1])
    ensures 0 <= From(sub) && From(sub) + i + 1 <= sub.snap && Delivered(hist, From(sub), out, From(sub) + i + 1)
  {
    StopsLast(sub.replay, i);
    ReplayedSome(next, hist, sub, i + 1);
  }

  lemma ReplayCloses(next: nat, lane: Lane, sub: Sub, i: nat)
    requires HistOk(next, lane.hist) && sub.phase == Replaying(i) && SubInv(next, lane, sub)
    requires i < |sub.replay| && ItemCloses(sub.replay[i])
    ensures SubInv(next, lane, ReadOn(sub, Done, sub.pos, sub.replay[..i + 1], sub.gap))
  {
    ReplayStands(next, lane, sub);
    ReplayedClosing(next, lane.hist, sub, i, sub.replay[..i + 1]);
    HorizonPastReplay(lane, sub);
    EndsHere(next, lane, sub, sub.pos, sub.replay[..i + 1], From(sub) + i + 1);
  }

  lemma ReplayedAll(next: nat, hist: seq<SeqEvent>, e: Epoch, sub: Sub)
    requires HistOk(next, hist) && sub.snap <= |hist| && sub.replay == ReplayOf(hist, sub.snap, sub.since)
    requires sub.maxReplayed == if sub.replay == [] then None else Some(sub.replay[|sub.replay| - 1].seqNo)
    requires Idx(e, sub.pos) == sub.sent0 <= sub.snap
    ensures Increasing(sub.replay) && BehindReader(e, sub.pos, sub.maxReplayed, sub.replay)
    ensures Delivered(hist, Start(sub), sub.replay, Max(Covered(sub), Idx(e, sub.pos)))
  {
    if sub.replay != [] {
      var i := |sub.replay|;
      assert sub.replay[..i] == sub.replay;
      ReplayedSome(next, hist, sub, i);
    }
  }

  lemma ReplayOver(next: nat, lane: Lane, sub: Sub, i: nat)
    requires HistOk(next, lane.hist) && sub.phase == Replaying(i) && SubInv(next, lane, sub) && i == |sub.replay|
    ensures SubInv(next, lane, ReadOn(sub, Live, sub.pos, sub.replay, sub.gap))
  {
    assert sub.replay[..i] == sub.replay;
    ReplayedAll(next, lane.hist, lane.epochs[sub.bus.value], sub);
    LiveAgain(next, lane, sub, sub.pos, sub.replay, sub.gap);
  }

  lemma ReplayShape(sub: Sub, i: nat)
    requires sub.phase == Replaying(i) && i <= |sub.replay| && sub.out == sub.replay[..i]
    ensures AfterReplay(sub)
         == if i == |sub.replay| then ReadOn(sub, Live, sub.pos, sub.replay, sub.gap)
            else ReadOn(sub, if ItemCloses(sub.replay[i]) then Done else Replaying(i + 1),
                        sub.pos, sub.replay[..i + 1], sub.gap)
  {
    if i < |sub.replay| {
      assert sub.replay[..i] + [sub.replay[i]] == sub.replay[..i + 1];
    }
  }

  lemma ReplayKeeps(next: nat, lane: Lane, sub: Sub, sub': Sub)
    requires HistOk(next, lane.hist) && sub.phase.Replaying? && SubInv(next, lane, sub)
    requires sub' == AfterReplay(sub)
    ensures SubInv(next, lane, sub')
  {
    var i := sub.phase.next;
    ReplayShape(sub, i);
    if i == |sub.replay| {
      ReplayOver(next, lane, sub, i);
    } else if ItemCloses(sub.replay[i]) {
      ReplayCloses(next, lane, sub, i);
    } else {
      ReplayMore(next, lane, sub, i);
    }
  }

  // ---- Receiving from the bus ----

  predicate Announces(e: Epoch, pos: nat) {
    pos == 0 && pos < |e.bus| && e.bus[pos].evt.TaskObject?
  }

  /** The item at a position of a bus is the announced task or the next known event. */
  lemma BusItem(hist: seq<SeqEvent>, e: Epoch, pos: nat)
    requires pos < |e.bus| && e.base + SentOn(e) <= |hist|
    requires BusCarries(e, hist[e.base..e.base + SentOn(e)])
    ensures Announces(e, pos) ==> Idx(e, pos + 1) == Idx(e, pos) == e.base
    requires forall i | 0 <= i < |hist| :: !hist[i].evt.TaskObject?
    ensures Announces(e, pos) <==> e.bus[pos].evt.TaskObject?
    ensures !Announces(e, pos) ==>
              Idx(e, pos) < |hist| && e.bus[pos] == hist[Idx(e, pos)] && Idx(e, pos + 1) == Idx(e, pos) + 1
  {
    if pos >= Off(e) {
      assert e.bus[pos] == e.bus[Off(e)..][pos - Off(e)];
    }
  }

  predicate Skips(max: Option<nat>, item: SeqEvent) {
    max.Some? && item.seqNo <= max.value
  }

  /** A live event is skipped exactly when the replay covered it. */
  lemma SkippedIffCovered(hist: seq<SeqEvent>, sub: Sub, j: nat)
    requires Increasing(hist) && sub.snap <= |hist| && j < |hist|
    requires sub.replay == ReplayOf(hist, sub.snap, sub.since)
    requires sub.maxReplayed == if sub.replay == [] then None else Some(sub.replay[|sub.replay| - 1].seqNo)
    ensures j < Covered(sub) <==> Skips(sub.maxReplayed, hist[j])
  {
    ReplaySlice(hist, sub.snap, sub.since);
  }

  lemma EventsSnoc(out: seq<SeqEvent>, item: SeqEvent)
    ensures EventsOf(out + [item]) == if item.evt.TaskObject? then EventsOf(out) else EventsOf(out) + [item]
  {
    FilterSnoc(out, item, IsEvent);
  }

  function Taking(out: seq<SeqEvent>, max: Option<nat>, item: SeqEvent): seq<SeqEvent> {
    if Skips(max, item) then out else out + [item]
  }

  /** One more item: the delivered stretch of history grows by it, or stays. `at` and
      `after` are the reader's history indices before and after it. */
  lemma ReceiveDelivers(hist: seq<SeqEvent>, item: SeqEvent, at: nat, after: nat, covered: nat, from: int,
                        out: seq<SeqEvent>, max: Option<nat>)
    requires Delivered(hist, from, out, Max(covered, at))
    requires item.evt.TaskObject? ==> after == at
    requires !item.evt.TaskObject? ==>
               at < |hist| && item == hist[at] && after == at + 1 && (at < covered <==> Skips(max, item))
    ensures Delivered(hist, from, Taking(out, max, item), Max(covered, after))
  {
    EventsSnoc(out, item);
    if !item.evt.TaskObject? && at >= covered {
      assert hist[from..at + 1] == hist[from..at] + [hist[at]];
    }
  }

  lemma ReceiveKeepsOrder(e: Epoch, pos: nat, max: Option<nat>, out: seq<SeqEvent>)
    requires Increasing(e.bus) && pos < |e.bus| && Increasing(out) && BehindReader(e, pos, max, out)
    ensures Increasing(Taking(out, max, e.bus[pos]))
    ensures BehindReader(e, pos + 1, max, Taking(out, max, e.bus[pos]))
  {
    var item := e.bus[pos];
    if !Skips(max, item) && out != [] {
      assert out[|out| - 1].seqNo < item.seqNo;
    }
  }

  lemma IdxMonotone(e: Epoch, a: nat, b: nat)
    requires a <= b <= |e.bus|
    ensures Idx(e, a) <= Idx(e, b) <= e.base + SentOn(e)
  {
  }

  ghost predicate BusKnown(lane: Lane, b: nat) {
    && b < |lane.epochs|
    && var e := lane.epochs[b];
    && e.isTurn && e.base + SentOn(e) <= |lane.hist|
    && BusCarries(e, lane.hist[e.base..e.base + SentOn(e)])
  }

  lemma ReceiveExactOn(hist: seq<SeqEvent>, e: Epoch, sub: Sub)
    requires Increasing(hist) && e.base + SentOn(e) <= |hist| && BusCarries(e, hist[e.base..e.base + SentOn(e)])
    requires forall i | 0 <= i < |hist| :: !hist[i].evt.TaskObject?
    requires sub.pos < |e.bus| && sub.snap <= |hist| && sub.replay == ReplayOf(hist, sub.snap, sub.since)
    requires sub.maxReplayed == if sub.replay == [] then None else Some(sub.replay[|sub.replay| - 1].seqNo)
    requires Delivered(hist, Start(sub), sub.out, Max(Covered(sub), Idx(e, sub.pos)))
    ensures Delivered(hist, Start(sub), Taking(sub.out, sub.maxReplayed, e.bus[sub.pos]),
                      Max(Covered(sub), Idx(e, sub.pos + 1)))
  {
    BusItem(hist, e, sub.pos);
    if !Announces(e, sub.pos) {
      SkippedIffCovered(hist, sub, Idx(e, sub.pos));
    }
    ReceiveDelivers(hist, e.bus[sub.pos], Idx(e, sub.pos), Idx(e, sub.pos + 1), Covered(sub), Start(sub),
                    sub.out, sub.maxReplayed);
  }

  lemma ReceiveExact(next: nat, lane: Lane, sub: Sub)
    requires HistOk(next, lane.hist) && sub.phase.Live? && SubInv(next, lane, sub) && sub.gap.None?
    requires BusKnown(lane, sub.bus.value) && sub.pos < |lane.epochs[sub.bus.value].bus|
    ensures var e := lane.epochs[sub.bus.value];
            Delivered(lane.hist, Start(sub), Taking(sub.out, sub.maxReplayed, e.bus[sub.pos]),
                      Max(Covered(sub), Idx(e, sub.pos + 1)))
  {
    ReceiveExactOn(lane.hist, lane.epochs[sub.bus.value], sub);
  }

  lemma TakingStops(out: seq<SeqEvent>, max: Option<nat>, item: SeqEvent)
    requires NoneStops(out, ItemCloses)
    ensures StopsOnlyLast(Taking(out, max, item), ItemCloses)
    ensures Skips(max, item) || !ItemCloses(item) ==> NoneStops(Taking(out, max, item), ItemCloses)
  {
  }

  lemma ClosingReceived(e: Epoch, pos: nat, max: Option<nat>, out: seq<SeqEvent>)
    requires Increasing(e.bus) && pos < |e.bus| && Increasing(out) && BehindReader(e, pos, max, out)
    requires NoneStops(out, ItemCloses) && !Skips(max, e.bus[pos]) && ItemCloses(e.bus[pos])
    ensures var longer := out + [e.bus[pos]];
            StopsOnlyLast(longer, ItemCloses) && Increasing(longer) && ItemCloses(longer[|longer| - 1])
  {
    ReceiveKeepsOrder(e, pos, max, out);
    TakingStops(out, max, e.bus[pos]);
  }

  lemma HorizonPastRead(lane: Lane, sub: Sub, pos: nat)
    requires sub.bus.Some? && BusKnown(lane, sub.bus.value) && pos <= |lane.epochs[sub.bus.value].bus|
    requires sub.snap <= |lane.hist|
    ensures Max(Covered(sub), Idx(lane.epochs[sub.bus.value], pos)) <= Horizon(lane, sub)
  {
    IdxMonotone(lane.epochs[sub.bus.value], pos, |lane.epochs[sub.bus.value].bus|);
  }

  lemma LiveStands(next: nat, lane: Lane, sub: Sub)
    requires sub.phase.Live? && SubInv(next, lane, sub)
    ensures Standing(next, lane, sub) && sub.snap <= |lane.hist|
    ensures NoneStops(sub.out, ItemCloses) && Increasing(sub.out)
    ensures BehindReader(lane.epochs[sub.bus.value], sub.pos, sub.maxReplayed, sub.out)
  {
  }

  lemma ReceiveEnds(next: nat, lane: Lane, sub: Sub)
    requires HistOk(next, lane.hist) && sub.phase.Live? && SubInv(next, lane, sub)
    requires BusKnown(lane, sub.bus.value) && sub.pos < |lane.epochs[sub.bus.value].bus|
    requires var item := lane.epochs[sub.bus.value].bus[sub.pos];
             !Skips(sub.maxReplayed, item) && ItemCloses(item)
    ensures var item := lane.epochs[sub.bus.value].bus[sub.pos];
            SubInv(next, lane, ReadOn(sub, Done, sub.pos + 1, sub.out + [item], sub.gap))
  {
    var e := lane.epochs[sub.bus.value];
    LiveStands(next, lane, sub);
    ClosingReceived(e, sub.pos, sub.maxReplayed, sub.out);
    HorizonPastRead(lane, sub, sub.pos + 1);
    if sub.gap.None? {
      ReceiveExact(next, lane, sub);
    }
    EndsHere(next, lane, sub, sub.pos + 1, sub.out + [e.bus[sub.pos]], Max(Covered(sub), Idx(e, sub.pos + 1)));
  }

  lemma ReceiveReads(next: nat, lane: Lane, sub: Sub)
    requires HistOk(next, lane.hist) && sub.phase.Live? && SubInv(next, lane, sub)
    requires BusKnown(lane, sub.bus.value) && sub.pos < |lane.epochs[sub.bus.value].bus|
    requires var item := lane.epochs[sub.bus.value].bus[sub.pos];
             Skips(sub.maxReplayed, item) || !ItemCloses(item)
    ensures var item := lane.epochs[sub.bus.value].bus[sub.pos];
            SubInv(next, lane, ReadOn(sub, Live, sub.pos + 1, Taking(sub.out, sub.maxReplayed, item), sub.gap))
  {
    var e := lane.epochs[sub.bus.value];
    var item := e.bus[sub.pos];
    ReceiveKeepsOrder(e, sub.pos, sub.maxReplayed, sub.out);
    TakingStops(sub.out, sub.maxReplayed, item);
    if sub.gap.None? {
      ReceiveExact(next, lane, sub);
    }
    LiveAgain(next, lane, sub, sub.pos + 1, Taking(sub.out, sub.maxReplayed, item), sub.gap);
  }

  lemma ReceiveShape(e: Epoch, sub: Sub)
    requires sub.phase.Live? && sub.pos < |e.bus| && sub.pos + EVENT_LOG_CAPACITY >= |e.bus|
    ensures var item := e.bus[sub.pos];
            AfterReceive(e, sub)
            == ReadOn(sub, if !Skips(sub.maxReplayed, item) && ItemCloses(item) then Done else Live,
                      sub.pos + 1, Taking(sub.out, sub.maxReplayed, item), sub.gap)
  {
  }

  lemma ReceiveItem(next: nat, lane: Lane, sub: Sub, sub': Sub)
    requires HistOk(next, lane.hist) && sub.phase.Live? && SubInv(next, lane, sub)
    requires BusKnown(lane, sub.bus.value)
    requires var e := lane.epochs[sub.bus.value];
             sub.pos < |e.bus| && sub.pos + EVENT_LOG_CAPACITY >= |e.bus| && sub' == AfterReceive(e, sub)
    ensures SubInv(next, lane, sub')
  {
    var e := lane.epochs[sub.bus.value];
    var item := e.bus[sub.pos];
    ReceiveShape(e, sub);
    if !Skips(sub.maxReplayed, item) && ItemCloses(item) {
      ReceiveEnds(next, lane, sub);
    } else {
      ReceiveReads(next, lane, sub);
    }
  }

  lemma LagKeeps(next: nat, lane: Lane, sub: Sub)
    requires sub.phase.Live? && SubInv(next, lane, sub)
    requires var e := lane.epochs[sub.bus.value];
             sub.pos + EVENT_LOG_CAPACITY < |e.bus| && Increasing(e.bus)
    ensures SubInv(next, lane, AfterReceive(lane.epochs[sub.bus.value], sub))
  {
    var e := lane.epochs[sub.bus.value];
    LiveAgain(next, lane, sub, |e.bus| - EVENT_LOG_CAPACITY, sub.out, AfterReceive(e, sub).gap);
  }

  lemma CloseKeeps(next: nat, lane: Lane, sub: Sub)
    requires sub.phase.Live? && SubInv(next, lane, sub) && BusKnown(lane, sub.bus.value)
    requires var e := lane.epochs[sub.bus.value];
             sub.pos == |e.bus| && !e.open
    ensures SubInv(next, lane, AfterReceive(lane.epochs[sub.bus.value], sub))
  {
    var e := lane.epochs[sub.bus.value];
    assert Idx(e, |e.bus|) == e.base + SentOn(e);
    EndsHere(next, lane, sub, sub.pos, sub.out, Max(Covered(sub), Idx(e, sub.pos)));
  }

  lemma ReceiveKeeps(next: nat, lane: Lane, sub: Sub, sub': Sub)
    requires HistOk(next, lane.hist) && sub.phase.Live? && SubInv(next, lane, sub)
    requires BusKnown(lane, sub.bus.value) && sub' == AfterReceive(lane.epochs[sub.bus.value], sub)
    ensures SubInv(next, lane, sub')
  {
    var e := lane.epochs[sub.bus.value];
    if sub.pos + EVENT_LOG_CAPACITY < |e.bus| {
      LagKeeps(next, lane, sub);
    } else if sub.pos < |e.bus| {
      ReceiveItem(next, lane, sub, sub');
    } else if !e.open {
      CloseKeeps(next, lane, sub);
    }
  }

  lemma LeadKeeps(next: nat, lane: Lane, sub: Sub, sub': Sub)
    requires sub.phase.Leading? && SubInv(next, lane, sub) && sub' == AfterLead(next, lane, sub)
    ensures SubInv(next, lane, sub')
  {
    SnapSame(lane, sub, sub');
  }

  lemma SnapSame(lane: Lane, sub: Sub, sub': Sub)
    requires SnapOk(lane, sub)
    requires sub'.snap == sub.snap && sub'.since == sub.since && sub'.bus == sub.bus && sub'.sent0 == sub.sent0
    requires sub'.replay == sub.replay && sub'.maxReplayed == sub.maxReplayed
    ensures SnapOk(lane, sub')
  {
  }

  lemma IdleShape(sub: Sub)
    requires sub.phase.IdleReplaying? && sub.phase.next <= |sub.replay| && sub.out == sub.replay[..sub.phase.next]
    ensures var i, sub' := sub.phase.next, AfterIdleReplay(sub);
            if i < |sub.replay| then
              sub'.out == sub.replay[..i + 1] && sub'.phase == IdleReplaying(i + 1, sub.phase.tail)
            else
              sub'.out == sub.replay + [sub.phase.tail] && sub'.phase == Done
  {
  }

  lemma IdleKeeps(next: nat, lane: Lane, sub: Sub, sub': Sub)
    requires sub.phase.IdleReplaying? && SubInv(next, lane, sub) && sub' == AfterIdleReplay(sub)
    ensures SubInv(next, lane, sub')
  {
    IdleShape(sub);
    SnapSame(lane, sub, sub');
  }

  lemma ReadKeeps(next: nat, lane: Lane, sub: Sub, sub': Sub)
    requires sub.phase.Reading? && SubInv(next, lane, sub) && sub' == AfterRead(lane, sub)
    ensures SubInv(next, lane, sub')
  {
  }

  lemma BusIsKnown(next: nat, lane: Lane, b: nat)
    requires LaneInv(next, lane) && b < |lane.epochs| && lane.epochs[b].isTurn
    ensures BusKnown(lane, b)
  {
    BusFacts(next, lane, b);
  }

  lemma LiveKeeps(next: nat, lane: Lane, sub: Sub, sub': Sub)
    requires LaneInv(next, lane) && sub.phase.Live? && SubInv(next, lane, sub)
    requires sub' == AfterSub(next, lane, sub)
    ensures SubInv(next, lane, sub')
  {
    BusIsKnown(next, lane, sub.bus.value);
    ReceiveKeeps(next, lane, sub, sub');
  }

  lemma SubStepKeeps(next: nat, lane: Lane, sub: Sub, sub': Sub)
    requires LaneInv(next, lane) && SubInv(next, lane, sub) && sub' == AfterSub(next, lane, sub)
    ensures SubInv(next, lane, sub')
  {
    match sub.phase
    case Reading => ReadKeeps(next, lane, sub, sub');
    case Attaching(_) => AttachKeeps(next, lane, sub, sub');
    case Snapshotting(_) => SnapshotKeeps(next, lane, sub, sub');
    case Leading(_) => LeadKeeps(next, lane, sub, sub');
    case Replaying(_) => ReplayKeeps(next, lane, sub, sub');
    case Live => LiveKeeps(next, lane, sub, sub');
    case IdleReplaying(_, _) => IdleKeeps(next, lane, sub, sub');
    case Done =>
    case Refused =>
  }
}
