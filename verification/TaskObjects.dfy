/** Task objects as stream items: what the one a stream gives reflects, and how its number
    stands to those of the events. */
module TaskObjects {
  import opened Types
  import opened Events
  import opened Pipeline
  import opened PipelineInvariant
  import opened Subscribers
  import opened Waiters

  // ---- Numbers on the buses ----

  ghost predicate AllSent(next: nat, lane: Lane, items: seq<SeqEvent>) {
    forall k | 0 <= k < |items| :: NothingUpToIsPending(next, lane, items[k].seqNo)
  }

  /** Nothing numbered up to an item on a bus can still be sent. */
  ghost predicate BusNumbers(next: nat, lane: Lane) {
    forall b | 0 <= b < |lane.epochs| :: AllSent(next, lane, lane.epochs[b].bus)
  }

  /** The number of a task about to be announced comes after all logged events. */
  ghost predicate LeadAbove(lane: Lane) {
    lane.writer.Active? && lane.writer.phase.LeadTaken? ==>
      forall j | 0 <= j < |lane.hist| :: lane.hist[j].seqNo < lane.writer.phase.no
  }

  /** Every bus of the new lane is empty or one of the old lane. */
  ghost predicate BusesStay(lane: Lane, lane': Lane) {
    forall b | 0 <= b < |lane'.epochs| ::
      || lane'.epochs[b].bus == []
      || (b < |lane.epochs| && lane'.epochs[b].base == lane.epochs[b].base
          && lane'.epochs[b].bus == lane.epochs[b].bus)
  }

  predicate Quiet(st: LaneStep) {
    !st.Append? && !st.Send? && !st.SendLead?
  }

  lemma QuietStep(next: nat, lane: Lane, st: LaneStep, lane': Lane)
    requires Enabled(lane, st) && Quiet(st) && lane' == AfterStep(next, lane, st)
    ensures lane'.hist == lane.hist && BusesStay(lane, lane')
  {
  }

  lemma InFlightMoves(next: nat, lane: Lane, st: LaneStep, lane': Lane)
    requires Enabled(lane, st) && !st.Send? && lane' == AfterStep(next, lane, st)
    ensures InFlight(lane').None? || InFlight(lane') == InFlight(lane) || InFlight(lane') == Some(next)
  {
  }

  lemma NumbersKept(next: nat, lane: Lane, next': nat, lane': Lane)
    requires BusNumbers(next, lane) && next <= next' && BusesStay(lane, lane')
    requires InFlight(lane').None? || InFlight(lane') == InFlight(lane) || InFlight(lane') == Some(next)
    ensures BusNumbers(next', lane')
  {
    forall b | 0 <= b < |lane'.epochs| ensures AllSent(next', lane', lane'.epochs[b].bus) {
      if lane'.epochs[b].bus != [] {
        assert AllSent(next, lane, lane.epochs[b].bus);
      }
    }
  }

  lemma NumberPut(next: nat, lane: Lane, lane': Lane, item: SeqEvent)
    requires BusNumbers(next, lane) && lane.epochs != [] && item.seqNo < next
    requires InFlight(lane').None? && lane'.epochs == OnBus(lane, item).epochs
    ensures BusNumbers(next, lane')
  {
    forall b | 0 <= b < |lane'.epochs| ensures AllSent(next, lane', lane'.epochs[b].bus) {
      assert AllSent(next, lane, lane.epochs[b].bus);
    }
  }

  lemma SendKeepsNumbers(next: nat, lane: Lane, lane': Lane)
    requires Enabled(lane, Send) && lane.writer.phase.no < next && BusNumbers(next, lane)
    requires lane' == AfterSend(lane)
    ensures BusNumbers(next, lane')
  {
    if Current(lane).isTurn {
      NumberPut(next, lane, lane', SeqEvent(lane.writer.phase.no, lane.writer.phase.evt));
    } else {
      NumbersKept(next, lane, next, lane');
    }
  }

  lemma StoredIsDrawn(next: nat, lane: Lane)
    requires HistOk(next, lane.hist) && Enabled(lane, Send) && CurrentOk(next, lane)
    ensures lane.writer.phase.no < next
  {
    assert SeqEvent(lane.writer.phase.no, lane.writer.phase.evt) == lane.hist[|lane.hist| - 1];
  }

  lemma SendLeadKeepsNumbers(next: nat, lane: Lane, lane': Lane)
    requires Enabled(lane, SendLead) && CurrentOk(next, lane) && BusNumbers(next, lane)
    requires lane' == AfterStep(next, lane, SendLead)
    ensures BusNumbers(next, lane')
  {
    NumberPut(next, lane, lane', SeqEvent(lane.writer.phase.no, TaskObject(LeadOf(Current(lane)))));
  }

  lemma AppendKeepsNumbers(next: nat, lane: Lane, lane': Lane)
    requires Enabled(lane, Append) && BusNumbers(next, lane) && lane' == AfterAppend(lane)
    ensures BusNumbers(next, lane')
  {
    NumbersKept(next, lane, next, lane');
  }

  lemma StepKeepsBusNumbers(next: nat, lane: Lane, st: LaneStep, next': nat, lane': Lane)
    requires HistOk(next, lane.hist) && (lane.epochs != [] ==> CurrentOk(next, lane))
    requires Enabled(lane, st) && BusNumbers(next, lane)
    requires next' == (if Draws(lane, st) then next + 1 else next) && lane' == AfterStep(next, lane, st)
    ensures BusNumbers(next', lane')
  {
    if st.SendLead? {
      SendLeadKeepsNumbers(next, lane, lane');
    } else if st.Send? {
      StoredIsDrawn(next, lane);
      SendKeepsNumbers(next, lane, lane');
    } else if st.Append? {
      AppendKeepsNumbers(next, lane, lane');
    } else {
      QuietStep(next, lane, st, lane');
      InFlightMoves(next, lane, st, lane');
      NumbersKept(next, lane, next', lane');
    }
  }

  lemma StepKeepsLeadAbove(next: nat, lane: Lane, st: LaneStep, lane': Lane)
    requires HistOk(next, lane.hist) && Enabled(lane, st) && LeadAbove(lane) && lane' == AfterStep(next, lane, st)
    ensures LeadAbove(lane')
  {
  }

  // ---- The announced task among the events ----

  /** A task announced on a bus is numbered between what was logged before the turn and
      what was logged since. */
  ghost predicate Apart(hist: seq<SeqEvent>, e: Epoch) {
    e.bus != [] && e.bus[0].evt.TaskObject? ==>
      && (forall j | 0 <= j < |hist| && j < e.base :: hist[j].seqNo < e.bus[0].seqNo)
      && (forall j | e.base <= j < |hist| :: e.bus[0].seqNo < hist[j].seqNo)
  }

  ghost predicate AllApart(lane: Lane) {
    forall b | 0 <= b < |lane.epochs| :: Apart(lane.hist, lane.epochs[b])
  }

  lemma BasesInside(next: nat, lane: Lane, b: nat)
    requires LaneInv(next, lane) && b < |lane.epochs|
    ensures lane.epochs[b].base <= |lane.hist|
  {
    if b < |lane.epochs| - 1 {
      assert ChainedAt(lane, b);
    }
  }

  lemma ApartAppended(hist: seq<SeqEvent>, e: Epoch, item: SeqEvent)
    requires Apart(hist, e) && e.base <= |hist|
    requires forall k | 0 <= k < |e.bus| :: e.bus[k].seqNo < item.seqNo
    ensures Apart(hist + [item], e)
  {
  }

  lemma AppendKeepsApart(next: nat, lane: Lane, lane': Lane)
    requires LaneInv(next, lane) && Enabled(lane, Append) && BusNumbers(next, lane) && AllApart(lane)
    requires lane' == AfterAppend(lane)
    ensures AllApart(lane')
  {
    var item := SeqEvent(lane.writer.phase.no, lane.writer.phase.evt);
    forall b | 0 <= b < |lane'.epochs| ensures Apart(lane'.hist, lane'.epochs[b]) {
      BasesInside(next, lane, b);
      assert Apart(lane.hist, lane.epochs[b]) && AllSent(next, lane, lane.epochs[b].bus);
      assert InFlight(lane) == Some(item.seqNo);
      ApartAppended(lane.hist, lane.epochs[b], item);
    }
  }

  /** A task is announced before its turn logs anything, on an empty bus. */
  lemma NothingAnnounced(next: nat, lane: Lane)
    requires Enabled(lane, SendLead) && CurrentOk(next, lane)
    ensures Current(lane).bus == [] && Current(lane).base == |lane.hist|
  {
    var e := Current(lane);
    assert Span(lane.hist, e.base, 0) == lane.hist[e.base..];
  }

  lemma OthersKeepApart(lane: Lane, lane': Lane)
    requires AllApart(lane) && lane'.hist == lane.hist && BusesStay(lane, lane')
    ensures AllApart(lane')
  {
    forall b | 0 <= b < |lane'.epochs| ensures Apart(lane'.hist, lane'.epochs[b]) {
      if lane'.epochs[b].bus != [] {
        assert Apart(lane.hist, lane.epochs[b]);
      }
    }
  }

  lemma PutKeepsApart(lane: Lane, lane': Lane, item: SeqEvent)
    requires AllApart(lane) && lane.epochs != []
    requires lane'.hist == lane.hist && lane'.epochs == OnBus(lane, item).epochs
    requires Current(lane).bus == [] && item.evt.TaskObject? ==>
               && Current(lane).base == |lane.hist|
               && forall j | 0 <= j < |lane.hist| :: lane.hist[j].seqNo < item.seqNo
    ensures AllApart(lane')
  {
    forall b | 0 <= b < |lane'.epochs| ensures Apart(lane'.hist, lane'.epochs[b]) {
      assert Apart(lane.hist, lane.epochs[b]);
    }
  }

  lemma SendKeepsApart(next: nat, lane: Lane, lane': Lane)
    requires HistOk(next, lane.hist) && Enabled(lane, Send) && CurrentOk(next, lane) && AllApart(lane)
    requires lane' == AfterSend(lane)
    ensures AllApart(lane')
  {
    var item := SeqEvent(lane.writer.phase.no, lane.writer.phase.evt);
    assert item == lane.hist[|lane.hist| - 1];
    if Current(lane).isTurn {
      PutKeepsApart(lane, lane', item);
    } else {
      OthersKeepApart(lane, lane');
    }
  }

  lemma SendLeadKeepsApart(next: nat, lane: Lane, lane': Lane)
    requires Enabled(lane, SendLead) && CurrentOk(next, lane) && LeadAbove(lane) && AllApart(lane)
    requires lane' == AfterStep(next, lane, SendLead)
    ensures AllApart(lane')
  {
    NothingAnnounced(next, lane);
    PutKeepsApart(lane, lane', SeqEvent(lane.writer.phase.no, TaskObject(LeadOf(Current(lane)))));
  }

  lemma StepKeepsApart(next: nat, lane: Lane, st: LaneStep, lane': Lane)
    requires LaneInv(next, lane) && Enabled(lane, st) && lane' == AfterStep(next, lane, st)
    requires BusNumbers(next, lane) && LeadAbove(lane) && AllApart(lane)
    ensures AllApart(lane')
  {
    if st.Append? {
      AppendKeepsApart(next, lane, lane');
    } else if st.SendLead? {
      SendLeadKeepsApart(next, lane, lane');
    } else if st.Send? {
      SendKeepsApart(next, lane, lane');
    } else {
      QuietStep(next, lane, st, lane');
      OthersKeepApart(lane, lane');
    }
  }

  // ---- What was on the buses when a subscription attached ----

  /** No event numbered up to `n` was in flight when it attached. */
  predicate SettledAt(sub: Sub, n: nat) {
    n < sub.counter && (sub.pending.Some? ==> n < sub.pending.value)
  }

  ghost predicate AllSettled(sub: Sub, items: seq<SeqEvent>) {
    forall k | 0 <= k < |items| :: SettledAt(sub, items[k].seqNo)
  }

  /** What a bus held at attachment. */
  function ItemsThen(lane: Lane, sub: Sub, b: nat): seq<SeqEvent>
    requires sub.bus.Some? && b <= sub.bus.value < |lane.epochs|
  {
    var bus := lane.epochs[b].bus;
    if b < sub.bus.value || |bus| < sub.pos0 then bus else bus[..sub.pos0]
  }

  ghost predicate ItemsSettled(lane: Lane, sub: Sub) {
    sub.bus.Some? ==>
      && sub.bus.value < |lane.epochs| && sub.pos0 <= |lane.epochs[sub.bus.value].bus|
      && forall b: nat | b <= sub.bus.value :: AllSettled(sub, ItemsThen(lane, sub, b))
  }

  lemma OlderBusesStay(next: nat, lane: Lane, st: LaneStep, b: nat)
    requires Enabled(lane, st) && b + 1 < |lane.epochs|
    ensures b < |AfterStep(next, lane, st).epochs| && AfterStep(next, lane, st).epochs[b].bus == lane.epochs[b].bus
  {
  }

  lemma ItemsStay(next: nat, lane: Lane, st: LaneStep, lane': Lane, sub: Sub)
    requires Enabled(lane, st) && lane' == AfterStep(next, lane, st) && Grows(lane, lane') && ItemsSettled(lane, sub)
    ensures ItemsSettled(lane', sub)
  {
    if sub.bus.Some? {
      assert EpochGrows(lane.epochs[sub.bus.value], lane'.epochs[sub.bus.value]);
      forall b: nat | b <= sub.bus.value ensures AllSettled(sub, ItemsThen(lane', sub, b)) {
        assert AllSettled(sub, ItemsThen(lane, sub, b));
        if b < sub.bus.value {
          OlderBusesStay(next, lane, st, b);
        }
        assert ItemsThen(lane', sub, b) == ItemsThen(lane, sub, b);
      }
    }
  }

  lemma AttachSettles(next: nat, lane: Lane, sub: Sub)
    requires BusNumbers(next, lane) && sub.counter == next && sub.pending == InFlight(lane)
    requires sub.bus.Some? ==> sub.bus.value < |lane.epochs| && sub.pos0 == |lane.epochs[sub.bus.value].bus|
    ensures ItemsSettled(lane, sub)
  {
    if sub.bus.Some? {
      forall b: nat | b <= sub.bus.value ensures AllSettled(sub, ItemsThen(lane, sub, b)) {
        assert AllSent(next, lane, lane.epochs[b].bus);
      }
    }
  }

  lemma AttachKeepsItems(next: nat, lane: Lane, sub: Sub, sub': Sub)
    requires lane.registered.Some? ==> lane.registered.value < |lane.epochs|
    requires sub.phase.Attaching? && BusNumbers(next, lane) && sub' == AfterAttach(next, lane, sub)
    ensures ItemsSettled(lane, sub')
  {
    AttachSettles(next, lane, sub');
  }

  lemma StepKeepsAttachment(next: nat, lane: Lane, sub: Sub)
    requires !sub.phase.Attaching?
    ensures var sub' := AfterSub(next, lane, sub);
            && sub'.bus == sub.bus && sub'.pos0 == sub.pos0
            && sub'.counter == sub.counter && sub'.pending == sub.pending
  {
  }

  lemma RegisteredKnown(next: nat, lane: Lane)
    requires LaneInv(next, lane)
    ensures lane.registered.Some? ==> lane.registered.value < |lane.epochs|
  {
    if lane.registered.Some? {
      RegisteredIsCurrent(next, lane);
    }
  }

  lemma SubStepKeepsItems(next: nat, lane: Lane, sub: Sub, sub': Sub)
    requires lane.registered.Some? ==> lane.registered.value < |lane.epochs|
    requires BusNumbers(next, lane) && ItemsSettled(lane, sub) && sub' == AfterSub(next, lane, sub)
    ensures ItemsSettled(lane, sub')
  {
    if sub.phase.Attaching? {
      AttachKeepsItems(next, lane, sub, sub');
    } else {
      StepKeepsAttachment(next, lane, sub);
      SameItems(lane, sub, sub');
    }
  }

  lemma SameItems(lane: Lane, sub: Sub, sub': Sub)
    requires ItemsSettled(lane, sub)
    requires sub'.bus == sub.bus && sub'.pos0 == sub.pos0
    requires sub'.counter == sub.counter && sub'.pending == sub.pending
    ensures ItemsSettled(lane, sub')
  {
    if sub.bus.Some? {
      forall b: nat | b <= sub.bus.value ensures AllSettled(sub', ItemsThen(lane, sub', b)) {
        assert AllSettled(sub, ItemsThen(lane, sub, b));
      }
    }
  }

  // ---- The task object a stream gives under a number of its own ----

  predicate ShowsOpenTask(item: SeqEvent) {
    item.evt.TaskObject? && !item.evt.task.status.state.IsTerminal()
  }

  /** A fresh subscription has a leading task, a resumed one has none; either way the
      task was not terminal when it was read. */
  predicate LeadInv(sub: Sub) {
    match sub.phase
    case Reading => sub.lead == None
    case Refused => sub.lead == None
    case Attaching(t) => sub.lead == None && !t.status.state.IsTerminal()
    case Snapshotting(t) => sub.lead == None && !t.status.state.IsTerminal()
    case Leading(t) => sub.lead == None && !t.status.state.IsTerminal()
    case IdleReplaying(_, tail) => sub.lead == None && sub.since.Some? && ShowsOpenTask(tail)
    case _ => (sub.lead.Some? <==> sub.since.None?) && (sub.lead.Some? ==> ShowsOpenTask(sub.lead.value))
  }

  lemma LeadStepKeeps(next: nat, lane: Lane, sub: Sub, sub': Sub)
    requires LeadInv(sub) && sub' == AfterSub(next, lane, sub)
    ensures LeadInv(sub')
  {
  }

  /** The task object: first if the subscription is fresh, last if the task was idle. */
  function ShownTask(sub: Sub): Option<SeqEvent> {
    if sub.lead.Some? then sub.lead
    else if sub.phase.IdleReplaying? then Some(sub.phase.tail)
    else if sub.phase.Done? && sub.bus.None? && sub.out != [] then Some(sub.out[|sub.out| - 1])
    else None
  }

  lemma ShownStays(next: nat, lane: Lane, sub: Sub, sub': Sub)
    requires OnItsBus(sub) && LeadInv(sub) && !sub.phase.Leading? && sub' == AfterSub(next, lane, sub)
    ensures ShownTask(sub') == ShownTask(sub)
  {
  }

  predicate OnItsBus(sub: Sub) {
    && (sub.phase.Replaying? || sub.phase.Live? ==> sub.bus.Some?)
    && (sub.phase.IdleReplaying? ==> sub.bus.None?)
  }

  lemma SubOnItsBus(next: nat, lane: Lane, sub: Sub)
    requires SubInv(next, lane, sub)
    ensures OnItsBus(sub)
  {
  }

  /** The task a subscription has read, before and after it gives it to its client. */
  function TaskRead(sub: Sub): Option<StreamResponse> {
    match sub.phase
    case Attaching(t) => Some(TaskObject(t))
    case Snapshotting(t) => Some(TaskObject(t))
    case Leading(t) => Some(TaskObject(t))
    case _ => if ShownTask(sub).Some? then Some(ShownTask(sub).value.evt) else None
  }

  /** It is the record that the task's first `read` events left, and not terminal. */
  ghost predicate Reflects(lane: Lane, sub: Sub) {
    TaskRead(sub).Some? ==>
      && 0 < sub.turns <= |lane.epochs|
      && var e := lane.epochs[sub.turns - 1];
      && e.base <= sub.read <= |lane.hist|
      && RecordTo(lane.hist, e, sub.read).Some? && !RecordTo(lane.hist, e, sub.read).value.status.state.IsTerminal()
      && TaskRead(sub).value == TaskObject(RecordTo(lane.hist, e, sub.read).value)
  }

  lemma ReflectsStill(lane: Lane, lane': Lane, sub: Sub)
    requires Grows(lane, lane') && Reflects(lane, sub)
    ensures Reflects(lane', sub)
  {
    if TaskRead(sub).Some? {
      assert EpochGrows(lane.epochs[sub.turns - 1], lane'.epochs[sub.turns - 1]);
      RecordToKept(lane.hist, lane'.hist, lane.epochs[sub.turns - 1], lane'.epochs[sub.turns - 1], sub.read);
    }
  }

  lemma ReadReflects(next: nat, lane: Lane, sub: Sub)
    requires LaneInv(next, lane) && sub.phase.Reading? && LeadInv(sub)
    ensures Reflects(lane, AfterRead(lane, sub))
  {
    if lane.store.Some? {
      StoreIsRecord(next, lane);
    }
  }

  lemma LeadTaskRead(next: nat, lane: Lane, sub: Sub)
    requires sub.phase.Leading? && LeadInv(sub) && sub.out == []
    ensures TaskRead(AfterLead(next, lane, sub)).Some? ==> TaskRead(AfterLead(next, lane, sub)) == TaskRead(sub)
  {
  }

  lemma SameReading(next: nat, lane: Lane, sub: Sub)
    requires !sub.phase.Reading?
    ensures AfterSub(next, lane, sub).turns == sub.turns && AfterSub(next, lane, sub).read == sub.read
  {
  }

  predicate Begun(sub: Sub) {
    !sub.phase.Reading? && !sub.phase.Attaching? && !sub.phase.Snapshotting? && !sub.phase.Leading?
  }

  lemma EarlyTaskRead(next: nat, lane: Lane, sub: Sub)
    requires sub.phase.Attaching? || sub.phase.Snapshotting?
    ensures TaskRead(AfterSub(next, lane, sub)) == TaskRead(sub)
  {
  }

  lemma LateTaskRead(next: nat, lane: Lane, sub: Sub, sub': Sub)
    requires Begun(sub) && sub' == AfterSub(next, lane, sub) && ShownTask(sub') == ShownTask(sub)
    ensures TaskRead(sub') == TaskRead(sub)
  {
    assert Begun(sub');
  }

  lemma SameTaskRead(next: nat, lane: Lane, sub: Sub, sub': Sub)
    requires SubInv(next, lane, sub) && LeadInv(sub) && !sub.phase.Reading? && sub' == AfterSub(next, lane, sub)
    ensures TaskRead(sub').Some? ==> TaskRead(sub') == TaskRead(sub)
  {
    if sub.phase.Leading? {
      LeadTaskRead(next, lane, sub);
    } else if Begun(sub) {
      SubOnItsBus(next, lane, sub);
      ShownStays(next, lane, sub, sub');
      LateTaskRead(next, lane, sub, sub');
    } else {
      EarlyTaskRead(next, lane, sub);
    }
  }

  lemma SubStepKeepsReflects(next: nat, lane: Lane, sub: Sub, sub': Sub)
    requires LaneInv(next, lane) && SubInv(next, lane, sub) && LeadInv(sub) && Reflects(lane, sub)
    requires sub' == AfterSub(next, lane, sub)
    ensures Reflects(lane, sub')
  {
    if sub.phase.Reading? {
      ReadReflects(next, lane, sub);
    } else {
      SameTaskRead(next, lane, sub, sub');
      SameReading(next, lane, sub);
    }
  }

  // ---- Its number ----

  /** The number of an event that is not yet logged. */
  function Unlogged(w: Writer): Option<nat> {
    if w.Active? && w.phase.Taken? then Some(w.phase.no) else None
  }

  /** Of the task's events, logged or to come, exactly the first `n` are numbered below
      `no`. */
  ghost predicate SplitsAt(hist: seq<SeqEvent>, unlogged: Option<nat>, n: nat, no: nat) {
    && (forall j | 0 <= j < |hist| :: hist[j].seqNo < no <==> j < n)
    && (forall j | 0 <= j < |hist| :: hist[j].seqNo != no)
    && (|hist| < n ==> n == |hist| + 1 && unlogged.Some?)
    && (unlogged.Some? ==> unlogged.value != no && (unlogged.value < no <==> |hist| < n))
  }

  ghost predicate NumberedOk(next: nat, lane: Lane, sub: Sub) {
    ShownTask(sub).Some? ==>
      && ShownTask(sub).value.seqNo < next
      && SplitsAt(lane.hist, Unlogged(lane.writer), sub.numbered, ShownTask(sub).value.seqNo)
  }

  lemma UnloggedIsDrawn(next: nat, lane: Lane)
    requires LaneInv(next, lane)
    ensures Unlogged(lane.writer).Some? ==> Unlogged(lane.writer).value < next
  {
  }

  /** A number just drawn comes after everything numbered before. */
  lemma DrawnSplits(next: nat, lane: Lane)
    requires LaneInv(next, lane)
    ensures SplitsAt(lane.hist, Unlogged(lane.writer), EventsNumbered(lane), next)
  {
    UnloggedIsDrawn(next, lane);
  }

  lemma SplitStays(next: nat, lane: Lane, st: LaneStep, lane': Lane, n: nat, no: nat)
    requires Enabled(lane, st) && lane' == AfterStep(next, lane, st) && no < next
    requires SplitsAt(lane.hist, Unlogged(lane.writer), n, no)
    ensures SplitsAt(lane'.hist, Unlogged(lane'.writer), n, no)
  {
    if st.Append? {
      assert lane'.hist == lane.hist + [SeqEvent(Unlogged(lane.writer).value, lane.writer.phase.evt)];
    } else {
      assert lane'.hist == lane.hist;
      assert Unlogged(lane'.writer) == if st.Draw? then Some(next) else Unlogged(lane.writer);
    }
  }

  lemma NumberedStays(next: nat, lane: Lane, st: LaneStep, next': nat, lane': Lane, sub: Sub)
    requires Enabled(lane, st) && lane' == AfterStep(next, lane, st) && next <= next' && NumberedOk(next, lane, sub)
    ensures NumberedOk(next', lane', sub)
  {
    if ShownTask(sub).Some? {
      SplitStays(next, lane, st, lane', sub.numbered, ShownTask(sub).value.seqNo);
    }
  }

  lemma LeadNumbers(next: nat, lane: Lane, sub: Sub)
    requires sub.phase.Leading? && LeadInv(sub) && sub.out == []
    requires SplitsAt(lane.hist, Unlogged(lane.writer), EventsNumbered(lane), next)
    ensures var sub' := AfterLead(next, lane, sub);
            && (ShownTask(sub').Some? ==> sub.since.None? || sub.bus.None?)
            && NumberedOk(next + 1, lane, sub')
  {
  }

  lemma SameNumbered(next: nat, lane: Lane, sub: Sub)
    requires !sub.phase.Leading?
    ensures AfterSub(next, lane, sub).numbered == sub.numbered
  {
  }

  /** The subscriber's own step, with the counter after it. */
  lemma SubStepKeepsNumbered(next: nat, lane: Lane, sub: Sub, sub': Sub, next': nat)
    requires SubInv(next, lane, sub) && LeadInv(sub) && NumberedOk(next, lane, sub) && sub' == AfterSub(next, lane, sub)
    requires SplitsAt(lane.hist, Unlogged(lane.writer), EventsNumbered(lane), next)
    requires next' == if sub.phase.Leading? && (sub.since.None? || sub.bus.None?) then next + 1 else next
    ensures NumberedOk(next', lane, sub')
  {
    if sub.phase.Leading? {
      LeadNumbers(next, lane, sub);
    } else {
      SubOnItsBus(next, lane, sub);
      ShownStays(next, lane, sub, sub');
      SameNumbered(next, lane, sub);
    }
  }

  // ---- Announced tasks in what was delivered ----

  /** The only task object a stream passes on from its bus is the announced one, right
      between the events logged before its turn and those of it. */
  ghost predicate InPlace(hist: seq<SeqEvent>, e: Epoch, from: int, out: seq<SeqEvent>) {
    forall m | 0 <= m < |out| && out[m].evt.TaskObject? ::
      && e.bus != [] && out[m] == e.bus[0] && 0 <= from <= e.base <= |hist|
      && EventsOf(out[..m]) == hist[from..e.base]
  }

  ghost predicate AnnouncedOk(lane: Lane, sub: Sub) {
    sub.bus.Some? && sub.gap.None? ==>
      sub.bus.value < |lane.epochs| && InPlace(lane.hist, lane.epochs[sub.bus.value], Start(sub), sub.out)
  }

  lemma InPlaceStill(hist: seq<SeqEvent>, hist': seq<SeqEvent>, e: Epoch, e': Epoch, from: int, out: seq<SeqEvent>)
    requires InPlace(hist, e, from, out) && hist <= hist' && EpochGrows(e, e')
    ensures InPlace(hist', e', from, out)
  {
    forall m | 0 <= m < |out| && out[m].evt.TaskObject?
      ensures e'.bus != [] && out[m] == e'.bus[0] && 0 <= from <= e'.base <= |hist'|
      ensures EventsOf(out[..m]) == hist'[from..e'.base]
    {
      assert hist'[from..e.base] == hist[from..e.base];
    }
  }

  lemma AnnouncedStays(lane: Lane, lane': Lane, sub: Sub)
    requires Grows(lane, lane') && AnnouncedOk(lane, sub)
    ensures AnnouncedOk(lane', sub)
  {
    if sub.bus.Some? && sub.gap.None? {
      assert EpochGrows(lane.epochs[sub.bus.value], lane'.epochs[sub.bus.value]);
      InPlaceStill(lane.hist, lane'.hist, lane.epochs[sub.bus.value], lane'.epochs[sub.bus.value], Start(sub), sub.out);
    }
  }

  lemma InPlaceSnoc(hist: seq<SeqEvent>, e: Epoch, from: int, out: seq<SeqEvent>, item: SeqEvent)
    requires InPlace(hist, e, from, out)
    requires item.evt.TaskObject? ==> e.bus != [] && item == e.bus[0] && Delivered(hist, from, out, e.base)
    ensures InPlace(hist, e, from, out + [item])
  {
    forall m | 0 <= m < |out + [item]| && (out + [item])[m].evt.TaskObject?
      ensures e.bus != [] && (out + [item])[m] == e.bus[0] && 0 <= from <= e.base <= |hist|
      ensures EventsOf((out + [item])[..m]) == hist[from..e.base]
    {
      assert (out + [item])[..m] == out[..m];
      assert m == |out| ==> out[..m] == out;
    }
  }

  lemma NoTasksInPlace(hist: seq<SeqEvent>, e: Epoch, from: int, out: seq<SeqEvent>)
    requires forall m | 0 <= m < |out| :: !out[m].evt.TaskObject?
    ensures InPlace(hist, e, from, out)
  {
  }

  /** A stream passes an announced task on only before any event of its turn. */
  lemma AnnouncedFirst(hist: seq<SeqEvent>, e: Epoch, sub: Sub)
    requires Increasing(hist) && Apart(hist, e) && e.base <= |hist| && sub.snap <= |hist|
    requires sub.pos < |e.bus| && Announces(e, sub.pos) && !Skips(sub.maxReplayed, e.bus[sub.pos])
    requires sub.replay == ReplayOf(hist, sub.snap, sub.since)
    requires sub.maxReplayed == if sub.replay == [] then None else Some(sub.replay[|sub.replay| - 1].seqNo)
    ensures Max(Covered(sub), Idx(e, sub.pos)) == e.base
  {
    ReplaySlice(hist, sub.snap, sub.since);
    assert sub.snap > e.base ==> e.bus[0].seqNo < hist[sub.snap - 1].seqNo;
  }

  lemma ReceiveInPlace(hist: seq<SeqEvent>, e: Epoch, sub: Sub)
    requires Increasing(hist) && Apart(hist, e) && e.base + SentOn(e) <= |hist|
    requires BusCarries(e, hist[e.base..e.base + SentOn(e)]) && forall i | 0 <= i < |hist| :: !hist[i].evt.TaskObject?
    requires sub.pos < |e.bus| && sub.snap <= |hist| && sub.replay == ReplayOf(hist, sub.snap, sub.since)
    requires sub.maxReplayed == if sub.replay == [] then None else Some(sub.replay[|sub.replay| - 1].seqNo)
    requires Delivered(hist, Start(sub), sub.out, Max(Covered(sub), Idx(e, sub.pos)))
    requires InPlace(hist, e, Start(sub), sub.out)
    ensures InPlace(hist, e, Start(sub), Taking(sub.out, sub.maxReplayed, e.bus[sub.pos]))
  {
    var item := e.bus[sub.pos];
    BusItem(hist, e, sub.pos);
    if !Skips(sub.maxReplayed, item) {
      if item.evt.TaskObject? {
        AnnouncedFirst(hist, e, sub);
      }
      InPlaceSnoc(hist, e, Start(sub), sub.out, item);
    }
  }

  lemma LiveReceives(next: nat, lane: Lane, sub: Sub)
    requires HistOk(next, lane.hist) && sub.bus.Some? && BusKnown(lane, sub.bus.value)
    requires SnapOk(lane, sub) && LiveOk(lane, lane.epochs[sub.bus.value], sub)
    requires sub.gap.None? && AnnouncedOk(lane, sub) && Apart(lane.hist, lane.epochs[sub.bus.value])
    requires sub.pos < |lane.epochs[sub.bus.value].bus|
    ensures var e := lane.epochs[sub.bus.value];
            InPlace(lane.hist, e, Start(sub), Taking(sub.out, sub.maxReplayed, e.bus[sub.pos]))
  {
    ReceiveInPlace(lane.hist, lane.epochs[sub.bus.value], sub);
  }

  lemma ReceiveAnnounces(lane: Lane, sub: Sub, sub': Sub)
    requires sub.phase.Live? && sub.bus.Some? && sub.bus.value < |lane.epochs| && AnnouncedOk(lane, sub)
    requires sub' == AfterReceive(lane.epochs[sub.bus.value], sub)
    requires var e := lane.epochs[sub.bus.value];
             sub.gap.None? && sub.pos < |e.bus| ==>
               InPlace(lane.hist, e, Start(sub), Taking(sub.out, sub.maxReplayed, e.bus[sub.pos]))
    ensures AnnouncedOk(lane, sub')
  {
    var e := lane.epochs[sub.bus.value];
    if sub.pos < |e.bus| && sub.pos + EVENT_LOG_CAPACITY >= |e.bus| {
      ReceiveShape(e, sub);
    }
  }

  lemma LiveAnnounces(next: nat, lane: Lane, sub: Sub, sub': Sub)
    requires LaneInv(next, lane) && sub.phase.Live? && SubInv(next, lane, sub) && AllApart(lane)
    requires AnnouncedOk(lane, sub) && sub' == AfterSub(next, lane, sub)
    ensures AnnouncedOk(lane, sub')
  {
    BusIsKnown(next, lane, sub.bus.value);
    var e := lane.epochs[sub.bus.value];
    assert Apart(lane.hist, e);
    if sub.gap.None? && sub.pos < |e.bus| {
      LiveReceives(next, lane, sub);
    }
    ReceiveAnnounces(lane, sub, sub');
  }

  lemma ReplayHasNoTasks(next: nat, hist: seq<SeqEvent>, snap: nat, since: Option<nat>)
    requires HistOk(next, hist) && snap <= |hist|
    ensures forall m | 0 <= m < |ReplayOf(hist, snap, since)| :: !ReplayOf(hist, snap, since)[m].evt.TaskObject?
  {
    ReplaySlice(hist, snap, since);
  }

  lemma ReplayAnnounces(next: nat, lane: Lane, sub: Sub, sub': Sub)
    requires HistOk(next, lane.hist) && sub.phase.Replaying? && SubInv(next, lane, sub) && sub' == AfterReplay(sub)
    ensures AnnouncedOk(lane, sub')
  {
    var i := sub.phase.next;
    ReplayHasNoTasks(next, lane.hist, sub.snap, sub.since);
    ReplayShape(sub, i);
    NoTasksInPlace(lane.hist, lane.epochs[sub.bus.value], Start(sub'), sub'.out);
  }

  lemma NothingOutYet(next: nat, lane: Lane, sub: Sub, sub': Sub)
    requires LaneInv(next, lane) && SubInv(next, lane, sub) && sub' == AfterSub(next, lane, sub)
    requires sub.phase.Reading? || sub.phase.Attaching? || sub.phase.Snapshotting? || sub.phase.Leading?
    ensures sub'.out == [] && (sub'.bus.Some? ==> sub'.bus.value < |lane.epochs|)
  {
    RegisteredKnown(next, lane);
  }

  lemma SubStepKeepsAnnounced(next: nat, lane: Lane, sub: Sub, sub': Sub)
    requires LaneInv(next, lane) && SubInv(next, lane, sub) && AllApart(lane)
    requires AnnouncedOk(lane, sub) && sub' == AfterSub(next, lane, sub)
    ensures AnnouncedOk(lane, sub')
  {
    match sub.phase
    case Live => LiveAnnounces(next, lane, sub, sub');
    case Replaying(_) => ReplayAnnounces(next, lane, sub, sub');
    case IdleReplaying(_, _) => assert sub'.bus == None;
    case Done =>
    case Refused =>
    case _ => NothingOutYet(next, lane, sub, sub');
  }

  // ---- Everything about the numbers on a lane, and about the task of a subscription ----

  ghost predicate NumbersInv(next: nat, lane: Lane) {
    BusNumbers(next, lane) && LeadAbove(lane) && AllApart(lane)
  }

  lemma LaterNumbers(next: nat, next': nat, lane: Lane)
    requires next <= next' && NumbersInv(next, lane)
    ensures NumbersInv(next', lane)
  {
    NumbersKept(next, lane, next', lane);
  }

  lemma StepKeepsNumbers(next: nat, lane: Lane, st: LaneStep, next': nat, lane': Lane)
    requires LaneInv(next, lane) && Enabled(lane, st) && NumbersInv(next, lane)
    requires next' == (if Draws(lane, st) then next + 1 else next) && lane' == AfterStep(next, lane, st)
    ensures NumbersInv(next', lane')
  {
    StepKeepsBusNumbers(next, lane, st, next', lane');
    StepKeepsLeadAbove(next, lane, st, lane');
    StepKeepsApart(next, lane, st, lane');
  }

  ghost predicate TaskInv(next: nat, lane: Lane, sub: Sub) {
    && LeadInv(sub) && ItemsSettled(lane, sub) && Reflects(lane, sub)
    && NumberedOk(next, lane, sub) && AnnouncedOk(lane, sub)
  }

  lemma LaterTask(next: nat, next': nat, lane: Lane, sub: Sub)
    requires next <= next' && TaskInv(next, lane, sub)
    ensures TaskInv(next', lane, sub)
  {
  }

  lemma FreshTask(next: nat, lane: Lane, since: Option<nat>)
    ensures TaskInv(next, lane, NewSubscriber(since))
  {
  }

  lemma SubStepKeepsTask(next: nat, lane: Lane, sub: Sub, sub': Sub, next': nat)
    requires LaneInv(next, lane) && SubInv(next, lane, sub) && NumbersInv(next, lane) && TaskInv(next, lane, sub)
    requires sub' == AfterSub(next, lane, sub)
    requires next' == if sub.phase.Leading? && (sub.since.None? || sub.bus.None?) then next + 1 else next
    ensures TaskInv(next', lane, sub')
  {
    LeadStepKeeps(next, lane, sub, sub');
    RegisteredKnown(next, lane);
    SubStepKeepsItems(next, lane, sub, sub');
    SubStepKeepsReflects(next, lane, sub, sub');
    DrawnSplits(next, lane);
    SubStepKeepsNumbered(next, lane, sub, sub', next');
    SubStepKeepsAnnounced(next, lane, sub, sub');
  }

  /** Only the list of subscriptions changes. */
  lemma TaskElsewhere(next: nat, lane: Lane, lane': Lane, sub: Sub)
    requires TaskInv(next, lane, sub) && lane' == lane.(subs := lane'.subs)
    ensures TaskInv(next, lane', sub)
  {
    if sub.bus.Some? {
      forall b: nat | b <= sub.bus.value ensures AllSettled(sub, ItemsThen(lane', sub, b)) {
        assert AllSettled(sub, ItemsThen(lane, sub, b));
      }
    }
  }

  /** The steps of others. */
  lemma StepKeepsTask(next: nat, lane: Lane, st: LaneStep, next': nat, lane': Lane, sub: Sub)
    requires LaneInv(next, lane) && Enabled(lane, st) && TaskInv(next, lane, sub)
    requires next' == (if Draws(lane, st) then next + 1 else next) && lane' == AfterStep(next, lane, st)
    ensures TaskInv(next', lane', sub)
  {
    StepGrows(next, lane, st);
    ItemsStay(next, lane, st, lane', sub);
    ReflectsStill(lane, lane', sub);
    NumberedStays(next, lane, st, next', lane', sub);
    AnnouncedStays(lane, lane', sub);
  }
}
