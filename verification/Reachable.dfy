/** One invariant for the whole pipeline, and its proof for every reachable state. */
module Reachable {
  import opened Types
  import opened Turns
  import opened Events
  import opened Pipeline
  import opened PipelineInvariant
  import opened Subscribers
  import opened Losses
  import opened Attachments
  import opened TaskObjects
  import opened Streamers
  import opened Waiters

  // ---- Which task drew a number ----

  predicate OwnedBy(drawn: map<nat, string>, id: string, s: seq<SeqEvent>) {
    forall i | 0 <= i < |s| :: s[i].seqNo in drawn && drawn[s[i].seqNo] == id
  }

  function PhaseNumber(w: Writer): Option<nat> {
    if !w.Active? then None
    else
      match w.phase
      case LeadTaken(no, _) => Some(no)
      case Taken(no, _) => Some(no)
      case Appended(no, _) => Some(no)
      case Stored(no, _) => Some(no)
      case _ => None
  }

  /** Every number in a lane's history, on its buses or on its way there was drawn for
      that lane's task. */
  ghost predicate Owned(drawn: map<nat, string>, id: string, lane: Lane) {
    && OwnedBy(drawn, id, lane.hist)
    && (forall b | 0 <= b < |lane.epochs| :: OwnedBy(drawn, id, lane.epochs[b].bus))
    && (var no := PhaseNumber(lane.writer);
        no.Some? ==> no.value in drawn && drawn[no.value] == id)
  }

  ghost predicate OnlyDrawn(next: nat, drawn: map<nat, string>) {
    forall n | n in drawn :: n < next
  }

  lemma OwnedKept(next: nat, drawn: map<nat, string>, id: string, lane: Lane, drawer: string)
    requires OnlyDrawn(next, drawn) && Owned(drawn, id, lane)
    ensures Owned(drawn[next := drawer], id, lane)
  {
    var drawn' := drawn[next := drawer];
    forall b | 0 <= b < |lane.epochs| ensures OwnedBy(drawn', id, lane.epochs[b].bus) {
      assert OwnedBy(drawn, id, lane.epochs[b].bus);
    }
  }

  lemma OwnedBusGrows(drawn: map<nat, string>, id: string, lane: Lane, item: SeqEvent)
    requires Owned(drawn, id, lane) && lane.epochs != []
    requires item.seqNo in drawn && drawn[item.seqNo] == id
    ensures Owned(drawn, id, OnBus(lane, item))
  {
    var lane' := OnBus(lane, item);
    forall b | 0 <= b < |lane'.epochs| ensures OwnedBy(drawn, id, lane'.epochs[b].bus) {
      assert OwnedBy(drawn, id, lane.epochs[b].bus);
    }
  }

  lemma OwnedSameBuses(drawn: map<nat, string>, id: string, lane: Lane, lane': Lane)
    requires Owned(drawn, id, lane)
    requires forall b | 0 <= b < |lane'.epochs| ::
               lane'.epochs[b].bus == [] || (b < |lane.epochs| && lane'.epochs[b].bus == lane.epochs[b].bus)
    requires OwnedBy(drawn, id, lane'.hist)
    requires PhaseNumber(lane'.writer).Some? ==>
               PhaseNumber(lane'.writer).value in drawn && drawn[PhaseNumber(lane'.writer).value] == id
    ensures Owned(drawn, id, lane')
  {
    forall b | 0 <= b < |lane'.epochs| ensures OwnedBy(drawn, id, lane'.epochs[b].bus) {
      if lane'.epochs[b].bus != [] {
        assert OwnedBy(drawn, id, lane.epochs[b].bus);
      }
    }
  }

  lemma StepOwns(next: nat, drawn: map<nat, string>, id: string, lane: Lane, st: LaneStep,
                 drawn': map<nat, string>, lane': Lane)
    requires OnlyDrawn(next, drawn) && Owned(drawn, id, lane) && Enabled(lane, st)
    requires lane' == AfterStep(next, lane, st)
    requires drawn' == if Draws(lane, st) then drawn[next := id] else drawn
    ensures Owned(drawn', id, lane')
  {
    match st
    case SendLead =>
      OwnedBusGrows(drawn, id, lane, SeqEvent(lane.writer.phase.no, TaskObject(LeadOf(Current(lane)))));
    case Send =>
      OwnedBusGrows(drawn, id, lane, SeqEvent(lane.writer.phase.no, lane.writer.phase.evt));
    case Append =>
      OwnedSameBuses(drawn', id, lane, lane');
    case _ =>
      QuietOwns(next, drawn, id, lane, st, drawn', lane');
  }

  lemma QuietOwns(next: nat, drawn: map<nat, string>, id: string, lane: Lane, st: LaneStep,
                  drawn': map<nat, string>, lane': Lane)
    requires OnlyDrawn(next, drawn) && Owned(drawn, id, lane) && Enabled(lane, st) && Quiet(st)
    requires lane' == AfterStep(next, lane, st)
    requires drawn' == if Draws(lane, st) then drawn[next := id] else drawn
    ensures Owned(drawn', id, lane')
  {
    OwnedKept(next, drawn, id, lane, id);
    QuietStep(next, lane, st, lane');
    NumberMoves(next, lane, st, lane');
    OwnedSameBuses(drawn', id, lane, lane');
  }

  lemma NumberMoves(next: nat, lane: Lane, st: LaneStep, lane': Lane)
    requires Enabled(lane, st) && lane' == AfterStep(next, lane, st)
    ensures || PhaseNumber(lane'.writer).None?
            || PhaseNumber(lane'.writer) == PhaseNumber(lane.writer)
            || (Draws(lane, st) && PhaseNumber(lane'.writer) == Some(next))
  {
  }

  // ---- A cancel leaves its task terminal ----

  predicate LandsTerminal(evt: StreamResponse) {
    evt.StatusUpdate? && evt.statusUpdate.status.state.IsTerminal()
  }

  ghost predicate CancelInv(lane: Lane) {
    lane.epochs != [] && !Current(lane).isTurn ==>
      var w := lane.writer;
      && (w.NoWriter? || w.phase.Ended? || (w.last && w.phase.Stored?) ==> IsTerminalTask(lane.store))
      && (w.Active? && w.last && !w.phase.Ended? ==>
            (w.phase.Ready? || w.phase.Taken? || w.phase.Appended? || w.phase.Stored?) && LandsTerminal(w.phase.evt))
  }

  predicate NoTurnPhase(lane: Lane) {
    Writing(lane) && !Current(lane).isTurn ==>
      !lane.writer.phase.Received? && !lane.writer.phase.LeadTaken? && !lane.writer.phase.Unregistered?
  }

  lemma CancelPhases(next: nat, lane: Lane)
    requires LaneInv(next, lane)
    ensures NoTurnPhase(lane)
  {
  }

  lemma StepKeepsCancel(next: nat, lane: Lane, st: LaneStep, lane': Lane)
    requires NoTurnPhase(lane) && CancelInv(lane) && Enabled(lane, st) && lane' == AfterStep(next, lane, st)
    ensures CancelInv(lane')
  {
    match st
    case StartTurn(f, send) => assert Current(lane').isTurn;
    case StartCancel(f) => assert lane'.writer == Active(Receiving, true, false, false);
    case _ => assert lane.epochs != [] ==> Current(lane').isTurn == Current(lane).isTurn;
  }

  /** A task's first turn starts from nothing. */
  predicate Origin(lane: Lane) {
    lane.epochs != [] ==> lane.epochs[0].base == 0 && lane.epochs[0].before == None
  }

  lemma StepKeepsOrigin(next: nat, lane: Lane, st: LaneStep, lane': Lane)
    requires LaneInv(next, lane) && Enabled(lane, st) && lane' == AfterStep(next, lane, st) && Origin(lane)
    ensures Origin(lane')
  {
    StepGrows(next, lane, st);
    if lane.epochs != [] {
      assert EpochGrows(lane.epochs[0], lane'.epochs[0]);
    }
  }

  /** Artifact updates without parts never get as far as the log. */
  predicate NoEmptyArtifacts(lane: Lane) {
    && (forall i | 0 <= i < |lane.hist| :: !IsEmptyArtifactUpdate(lane.hist[i].evt))
    && (lane.writer.Active? ==>
          match lane.writer.phase
          case Received(evt) => !IsEmptyArtifactUpdate(evt)
          case LeadTaken(_, evt) => !IsEmptyArtifactUpdate(evt)
          case Ready(evt) => !IsEmptyArtifactUpdate(evt)
          case Taken(_, evt) => !IsEmptyArtifactUpdate(evt)
          case _ => true)
  }

  lemma StepKeepsParts(next: nat, lane: Lane, st: LaneStep, lane': Lane)
    requires NoEmptyArtifacts(lane) && Enabled(lane, st) && lane' == AfterStep(next, lane, st)
    ensures NoEmptyArtifacts(lane')
  {
  }

  // ---- Everything about one lane ----

  ghost predicate LaneGood(next: nat, drawn: map<nat, string>, id: string, lane: Lane) {
    && LaneInv(next, lane) && NumbersInv(next, lane)
    && Owned(drawn, id, lane) && CancelInv(lane) && Origin(lane) && NoEmptyArtifacts(lane)
    && (forall i | 0 <= i < |lane.subs| :: SubInv(next, lane, lane.subs[i]))
    && (forall i | 0 <= i < |lane.subs| :: TaskInv(next, lane, lane.subs[i]))
    && (forall i | 0 <= i < |lane.subs| :: GapInv(lane, lane.subs[i]))
    && (forall i | 0 <= i < |lane.subs| :: AttachInv(lane, lane.subs[i]))
    && (forall i | 0 <= i < |lane.waiters| :: WaitInv(lane, lane.waiters[i]))
    && (forall i | 0 <= i < |lane.streamers| :: StreamerInv(lane, lane.streamers[i]))
  }

  lemma LaterSub(next: nat, next': nat, lane: Lane, sub: Sub)
    requires next <= next' && SubInv(next, lane, sub)
    ensures SubInv(next', lane, sub)
  {
  }

  /** A step of another task: only the counter moves. */
  lemma OtherLane(next: nat, drawn: map<nat, string>, id: string, lane: Lane, drawer: string,
                  next': nat, drawn': map<nat, string>)
    requires OnlyDrawn(next, drawn) && LaneGood(next, drawn, id, lane)
    requires next' == next + 1 && drawn' == drawn[next := drawer]
    ensures LaneGood(next', drawn', id, lane)
  {
    LaterCounter(next, next', lane);
    LaterNumbers(next, next', lane);
    OwnedKept(next, drawn, id, lane, drawer);
    forall i | 0 <= i < |lane.subs| ensures SubInv(next', lane, lane.subs[i]) && TaskInv(next', lane, lane.subs[i]) {
      LaterSub(next, next', lane, lane.subs[i]);
      LaterTask(next, next', lane, lane.subs[i]);
    }
  }

  function NextAfter(next: nat, lane: Lane, st: LaneStep): nat
    requires Enabled(lane, st)
  {
    if Draws(lane, st) then next + 1 else next
  }

  lemma StepKeepsSub(next: nat, lane: Lane, st: LaneStep, lane': Lane, i: nat)
    requires LaneInv(next, lane) && Enabled(lane, st) && lane' == AfterStep(next, lane, st) && i < |lane'.subs|
    requires forall j | 0 <= j < |lane.subs| :: SubInv(next, lane, lane.subs[j])
    ensures SubInv(NextAfter(next, lane, st), lane', lane'.subs[i])
  {
    if i < |lane.subs| {
      if st == AdvanceSub(i) {
        SubStepKeeps(next, lane, lane.subs[i], lane'.subs[i]);
      } else {
        assert lane'.subs[i] == lane.subs[i];
      }
      SubKept(next, lane, st, lane'.subs[i], NextAfter(next, lane, st), lane');
    }
  }

  lemma StepKeepsTasks(next: nat, lane: Lane, st: LaneStep, lane': Lane, i: nat)
    requires LaneInv(next, lane) && NumbersInv(next, lane) && Enabled(lane, st) && lane' == AfterStep(next, lane, st)
    requires forall j | 0 <= j < |lane.subs| :: SubInv(next, lane, lane.subs[j]) && TaskInv(next, lane, lane.subs[j])
    requires i < |lane'.subs|
    ensures TaskInv(NextAfter(next, lane, st), lane', lane'.subs[i])
  {
    if i >= |lane.subs| {
      FreshTask(NextAfter(next, lane, st), lane', lane'.subs[i].since);
    } else if st == AdvanceSub(i) {
      SubStepKeepsTask(next, lane, lane.subs[i], lane'.subs[i], NextAfter(next, lane, st));
      TaskElsewhere(NextAfter(next, lane, st), lane, lane', lane'.subs[i]);
    } else {
      assert lane'.subs[i] == lane.subs[i];
      StepKeepsTask(next, lane, st, NextAfter(next, lane, st), lane', lane.subs[i]);
    }
  }

  lemma StepKeepsStreamer(next: nat, lane: Lane, st: LaneStep, lane': Lane, i: nat)
    requires LaneInv(next, lane) && Enabled(lane, st) && lane' == AfterStep(next, lane, st) && i < |lane'.streamers|
    requires forall j | 0 <= j < |lane.streamers| :: StreamerInv(lane, lane.streamers[j])
    ensures StreamerInv(lane', lane'.streamers[i])
  {
    if i < |lane.streamers| {
      if st == AdvanceStreamer(i) {
        BusIncreases(next, lane, lane.streamers[i].bus);
        StreamerStepKeeps(lane, lane.streamers[i]);
      } else {
        assert lane'.streamers[i] == lane.streamers[i];
      }
      StepGrows(next, lane, st);
      StreamerStays(lane, lane', lane'.streamers[i]);
    } else {
      FreshStreamer(lane', |lane.epochs|);
    }
  }

  lemma StepKeepsGap(next: nat, lane: Lane, st: LaneStep, lane': Lane, i: nat)
    requires LaneInv(next, lane) && Enabled(lane, st) && lane' == AfterStep(next, lane, st) && i < |lane'.subs|
    requires forall j | 0 <= j < |lane.subs| :: SubInv(next, lane, lane.subs[j])
    requires forall j | 0 <= j < |lane.subs| :: GapInv(lane, lane.subs[j])
    ensures GapInv(lane', lane'.subs[i])
  {
    if i < |lane.subs| {
      assert GapInv(lane, lane.subs[i]);
      if st == AdvanceSub(i) {
        SubStepKeepsGap(next, lane, lane.subs[i], lane'.subs[i]);
      } else {
        assert lane'.subs[i] == lane.subs[i];
      }
      StepGrows(next, lane, st);
      GapKept(lane, lane', lane'.subs[i]);
    }
  }

  lemma StepKeepsAttachment(next: nat, lane: Lane, st: LaneStep, lane': Lane, i: nat)
    requires LaneInv(next, lane) && Enabled(lane, st) && lane' == AfterStep(next, lane, st) && i < |lane'.subs|
    requires forall j | 0 <= j < |lane.subs| :: AttachInv(lane, lane.subs[j])
    ensures AttachInv(lane', lane'.subs[i])
  {
    if i >= |lane.subs| {
      FreshAttachment(lane', lane'.subs[i].since);
    } else if st == AdvanceSub(i) {
      SubStepKeepsAttachment(next, lane, lane.subs[i], lane'.subs[i]);
      AttachmentElsewhere(lane, lane', lane'.subs[i]);
    } else {
      assert lane'.subs[i] == lane.subs[i];
      StepGrows(next, lane, st);
      AttachmentStays(next, lane, st, lane', lane.subs[i]);
    }
  }

  lemma StepKeepsWaiter(next: nat, lane: Lane, st: LaneStep, lane': Lane, i: nat)
    requires LaneInv(next, lane) && Enabled(lane, st) && lane' == AfterStep(next, lane, st) && i < |lane'.waiters|
    requires forall j | 0 <= j < |lane.waiters| :: WaitInv(lane, lane.waiters[j])
    ensures WaitInv(lane', lane'.waiters[i])
  {
    if i < |lane.waiters| {
      if st == AdvanceWaiter(i) {
        WaitStepKeeps(next, lane, lane.waiters[i]);
      } else {
        assert lane'.waiters[i] == lane.waiters[i];
      }
      WaitKept(next, lane, st, lane'.waiters[i]);
    }
  }

  lemma StepKeepsSubs(next: nat, lane: Lane, st: LaneStep, lane': Lane)
    requires LaneInv(next, lane) && NumbersInv(next, lane) && Enabled(lane, st) && lane' == AfterStep(next, lane, st)
    requires forall i | 0 <= i < |lane.subs| :: SubInv(next, lane, lane.subs[i])
    requires forall i | 0 <= i < |lane.subs| :: TaskInv(next, lane, lane.subs[i])
    requires forall i | 0 <= i < |lane.subs| :: GapInv(lane, lane.subs[i])
    requires forall i | 0 <= i < |lane.subs| :: AttachInv(lane, lane.subs[i])
    ensures forall i | 0 <= i < |lane'.subs| :: SubInv(NextAfter(next, lane, st), lane', lane'.subs[i])
    ensures forall i | 0 <= i < |lane'.subs| :: TaskInv(NextAfter(next, lane, st), lane', lane'.subs[i])
    ensures forall i | 0 <= i < |lane'.subs| :: GapInv(lane', lane'.subs[i])
    ensures forall i | 0 <= i < |lane'.subs| :: AttachInv(lane', lane'.subs[i])
  {
    var next' := NextAfter(next, lane, st);
    forall i | 0 <= i < |lane'.subs| ensures SubInv(next', lane', lane'.subs[i]) {
      StepKeepsSub(next, lane, st, lane', i);
    }
    forall i | 0 <= i < |lane'.subs| ensures TaskInv(next', lane', lane'.subs[i]) {
      StepKeepsTasks(next, lane, st, lane', i);
    }
    forall i | 0 <= i < |lane'.subs| ensures GapInv(lane', lane'.subs[i]) {
      StepKeepsGap(next, lane, st, lane', i);
    }
    forall i | 0 <= i < |lane'.subs| ensures AttachInv(lane', lane'.subs[i]) {
      StepKeepsAttachment(next, lane, st, lane', i);
    }
  }

  lemma StepKeepsAll(next: nat, drawn: map<nat, string>, id: string, lane: Lane, st: LaneStep,
                     next': nat, drawn': map<nat, string>, lane': Lane)
    requires OnlyDrawn(next, drawn) && LaneGood(next, drawn, id, lane) && Enabled(lane, st)
    requires lane' == AfterStep(next, lane, st) && next' == NextAfter(next, lane, st)
    requires drawn' == if Draws(lane, st) then drawn[next := id] else drawn
    ensures LaneGood(next', drawn', id, lane')
  {
    StepKeepsLane(next, lane, st, next', lane');
    StepOwns(next, drawn, id, lane, st, drawn', lane');
    CancelPhases(next, lane);
    StepKeepsCancel(next, lane, st, lane');
    StepKeepsOrigin(next, lane, st, lane');
    StepKeepsParts(next, lane, st, lane');
    StepKeepsNumbers(next, lane, st, next', lane');
    StepKeepsSubs(next, lane, st, lane');
    forall i | 0 <= i < |lane'.waiters| ensures WaitInv(lane', lane'.waiters[i]) {
      StepKeepsWaiter(next, lane, st, lane', i);
    }
    forall i | 0 <= i < |lane'.streamers| ensures StreamerInv(lane', lane'.streamers[i]) {
      StepKeepsStreamer(next, lane, st, lane', i);
    }
  }

  // ---- Every reachable state ----

  /** The invariant as seen from one task. */
  ghost predicate Good(s: State, id: string) {
    OnlyDrawn(s.next, s.drawn) && LaneGood(s.next, s.drawn, id, LaneAt(s, id))
  }

  lemma GoodAgain(s: State, id: string, lane: Lane)
    requires OnlyDrawn(s.next, s.drawn) && LaneAt(s, id) == lane && LaneGood(s.next, s.drawn, id, lane)
    ensures Good(s, id)
  {
  }

  lemma NextHere(s: State, id: string, st: LaneStep, lane: Lane)
    requires LaneAt(s, id) == lane && Enabled(lane, st)
    ensures var s' := Next(s, id, st);
            && LaneAt(s', id) == AfterStep(s.next, lane, st) && s'.next == NextAfter(s.next, lane, st)
            && s'.drawn == if Draws(lane, st) then s.drawn[s.next := id] else s.drawn
  {
  }

  lemma OwnStepKeeps(s: State, id: string, st: LaneStep)
    requires Good(s, id)
    ensures Good(Next(s, id, st), id)
  {
    var lane, s' := LaneAt(s, id), Next(s, id, st);
    if Enabled(lane, st) {
      NextHere(s, id, st, lane);
      StepKeepsAll(s.next, s.drawn, id, lane, st, s'.next, s'.drawn, LaneAt(s', id));
      GoodAgain(s', id, LaneAt(s', id));
    }
  }

  lemma OtherStepKeeps(s: State, id: string, mover: string, st: LaneStep)
    requires Good(s, id) && mover != id
    ensures Good(Next(s, mover, st), id)
  {
    var lane, s' := LaneAt(s, id), Next(s, mover, st);
    if s'.next != s.next {
      OtherLane(s.next, s.drawn, id, lane, mover, s'.next, s'.drawn);
    }
    GoodAgain(s', id, lane);
  }

  /** Every interleaving of any number of steps on any number of tasks keeps the
      invariant. */
  lemma {:induction false} AlwaysGood(moves: seq<Move>, id: string)
    ensures Good(Run(moves), id)
  {
    if moves != [] {
      var n := |moves| - 1;
      AlwaysGood(moves[..n], id);
      if moves[n].id == id {
        OwnStepKeeps(Run(moves[..n]), id, moves[n].st);
      } else {
        OtherStepKeeps(Run(moves[..n]), id, moves[n].id, moves[n].st);
      }
    }
  }
}
